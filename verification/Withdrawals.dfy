/** Withdrawals over one driver's wallet: requests, the automatic payout's answer, admin
    decisions and payout webhooks, repeated and in any order. */
module Withdrawals {
  import opened Money
  import opened DriverWallet
  import Runs

  datatype Status = Pending | Processing | Completed | Rejected

  /** `payoutId` is whether a transfer id is stored on the row: the id itself is a function of
      the withdrawal's id. `debitDue` and `awaiting` say how far the requesting call has come:
      the row is inserted and the wallet not yet debited; the debit is made and the automatic
      payout not yet answered. `unpaid` is set when the row was saved as rejected and its
      refund then failed; the source keeps no such mark. */
  datatype Request = Request(
    amount: int,
    status: Status,
    payoutId: bool,
    debitDue: bool,
    awaiting: bool,
    unpaid: bool)

  /** `early` counts the admin decisions on requests whose debit was still due. */
  datatype Desk = Desk(wallet: Wallet, requests: map<nat, Request>, early: nat)

  /** What the request's guards read, before the debit takes its lock. */
  datatype Seen = Seen(balance: int, frozen: bool, openRequest: bool, twoWheeler: bool)

  datatype Transfer = Accepted | Failed | NoAnswer

  datatype Verdict = Success | Failure | Other

  /** `paid` says whether the refund, if one is made, succeeds. */
  datatype Event =
    | Insert(id: nat, amount: int, seen: Seen)
    | DebitWallet(id: nat, autoPayout: bool)
    | AutoPayout(id: nat, answer: Transfer, paid: bool)
    | Approve(id: nat, automated: bool) // whether an automated transfer was created
    | Reject(id: nat, paid: bool)
    | Webhook(id: nat, verdict: Verdict, paid: bool)
    | Trip(amount: int, booking: nat)
    | CashTrip(commission: int, shield: int, booking: nat)
    | Load(amount: int, order: nat)
    | Adjust(delta: int)

  /** The smallest withdrawal: 500 rupees for two-wheelers, 1000 for other vehicles. */
  function MinWithdrawal(twoWheeler: bool): int {
    if twoWheeler then 50000 else 100000
  }

  predicate MayAsk(amount: int, seen: Seen) {
    && !seen.frozen
    && amount >= MinWithdrawal(seen.twoWheeler)
    && amount <= seen.balance
    && !seen.openRequest
  }

  function AfterInsert(d: Desk, id: nat, amount: int, seen: Seen): Desk {
    if id in d.requests || !MayAsk(amount, seen) then d
    else d.(requests := d.requests[id := Request(amount, Pending, false, true, false, false)])
  }

  /** A debit that fails voids the request, whatever became of it meanwhile. */
  function AfterDebitWallet(d: Desk, id: nat, autoPayout: bool): Desk {
    if id !in d.requests || !d.requests[id].debitDue then d
    else
      var r := d.requests[id].(debitDue := false);
      var (wallet, ok) := AfterWithdrawalDebit(d.wallet, r.amount, id);
      d.(wallet := wallet,
         requests := d.requests[id := if ok then r.(awaiting := autoPayout) else r.(status := Rejected)])
  }

  function Refunded(d: Desk, id: nat, r: Request): Desk {
    d.(wallet := AfterWithdrawalRefund(d.wallet, r.amount, id), requests := d.requests[id := r])
  }

  /** The row is saved as rejected first, and refunded then. */
  function AfterFailure(d: Desk, id: nat, r: Request, paid: bool): Desk {
    if paid then Refunded(d, id, r.(status := Rejected, unpaid := false))
    else d.(requests := d.requests[id := r.(status := Rejected, unpaid := !HasRefund(d.wallet.rows, id))])
  }

  function AfterAutoPayout(d: Desk, id: nat, answer: Transfer, paid: bool): Desk {
    if id !in d.requests || !d.requests[id].awaiting then d
    else
      var r := d.requests[id].(awaiting := false);
      match answer
      case Failed => AfterFailure(d, id, r, paid)
      case Accepted => d.(requests := d.requests[id := r.(status := Processing, payoutId := true)])
      case NoAnswer => d.(requests := d.requests[id := r])
  }

  function AfterApprove(d: Desk, id: nat, automated: bool): Desk {
    if id !in d.requests then d
    else
      var r := d.requests[id];
      if r.status.Completed? || r.status.Rejected? || (r.status.Processing? && r.payoutId) then d
      else if automated then d.(requests := d.requests[id := r.(status := Processing, payoutId := true)])
      else d.(requests := d.requests[id := r.(status := Completed)])
  }

  /** Here the refund comes first: when it fails, nothing is saved. */
  function AfterReject(d: Desk, id: nat, paid: bool): Desk {
    if id !in d.requests || d.requests[id].status.Completed? || d.requests[id].status.Rejected? || !paid then d
    else Refunded(d, id, d.requests[id].(status := Rejected, unpaid := false))
  }

  /** A webhook finds its withdrawal by the stored transfer id. */
  function AfterWebhook(d: Desk, id: nat, verdict: Verdict, paid: bool): Desk {
    if id !in d.requests || !d.requests[id].payoutId then d
    else
      var r := d.requests[id];
      match verdict
      case Success =>
        if r.status.Completed? then d else d.(requests := d.requests[id := r.(status := Completed)])
      case Failure =>
        if r.status.Rejected? then d else AfterFailure(d, id, r, paid)
      case Other => d
  }

  /** After a decision on request `id`, made when the desk was as in `before`. */
  function Counted(d: Desk, before: Desk, id: nat): Desk {
    if id in before.requests && before.requests[id].debitDue then d.(early := d.early + 1) else d
  }

  function Step(d: Desk, e: Event): Desk {
    match e
    case Insert(id, amount, seen) => AfterInsert(d, id, amount, seen)
    case DebitWallet(id, autoPayout) => AfterDebitWallet(d, id, autoPayout)
    case AutoPayout(id, answer, paid) => AfterAutoPayout(d, id, answer, paid)
    case Approve(id, automated) => Counted(AfterApprove(d, id, automated), d, id)
    case Reject(id, paid) => Counted(AfterReject(d, id, paid), d, id)
    case Webhook(id, verdict, paid) => AfterWebhook(d, id, verdict, paid)
    case Trip(amount, booking) => d.(wallet := AfterTripEarnings(d.wallet, amount, booking))
    case CashTrip(commission, shield, booking) =>
      d.(wallet := AfterCashCommission(d.wallet, commission, shield, booking))
    case Load(amount, order) => d.(wallet := AfterTopUp(d.wallet, amount, order))
    case Adjust(delta) =>
      d.(wallet := Adjusted(d.wallet, delta, if delta < 0 then AdminDebit else AdminCredit, NoBooking, NoRef))
  }

  function Init(opening: int): Desk {
    Desk(Wallet(opening, []), map[], 0)
  }

  // ---------------------------------------------------------------------------------------
  // What every run keeps
  // ---------------------------------------------------------------------------------------

  predicate Concerns(r: Row, id: nat) {
    r.ref == WithdrawalRef(id) || r.ref == RefundRef(id)
  }

  /** What the ledger says a withdrawal did to the wallet. */
  function Effect(opening: int, rows: seq<Row>, id: nat): int {
    Movement(opening, rows, r => Concerns(r, id))
  }

  predicate Debited(d: Desk, id: nat) {
    HasDebit(d.wallet.rows, id)
  }

  predicate WasRefunded(d: Desk, id: nat) {
    HasRefund(d.wallet.rows, id)
  }

  /** The life of one withdrawal as its row and the ledger together show it. */
  ghost predicate Settles(opening: int, d: Desk, id: nat) {
    if id !in d.requests then
      !Debited(d, id) && !WasRefunded(d, id) && Effect(opening, d.wallet.rows, id) == 0
    else
      var r := d.requests[id];
      && Effect(opening, d.wallet.rows, id)
         == (if Debited(d, id) then -r.amount else 0) + (if WasRefunded(d, id) then r.amount else 0)
      && (r.debitDue ==> !Debited(d, id))
      && (r.unpaid ==> !WasRefunded(d, id))
      && (r.status.Rejected? && (Debited(d, id) || r.debitDue) && !r.unpaid ==> WasRefunded(d, id))
      && (WasRefunded(d, id) ==> r.status.Rejected? || r.payoutId)
      && (r.payoutId ==> !r.status.Pending?)
      && (r.awaiting ==> Debited(d, id))
      && (r.status.Pending? || r.status.Processing? ==> Debited(d, id) || r.debitDue)
  }

  ghost predicate AllSettle(opening: int, d: Desk) {
    && d.wallet.balance == Before(opening, d.wallet.rows, |d.wallet.rows|)
    && forall id: nat :: Settles(opening, d, id)
  }

  /** A new row changes the standing of the withdrawal it concerns and of no other. */
  lemma RowEffect(opening: int, w: Wallet, delta: int, txn: TxnType, booking: Booking, ref: Ref, id: nat)
    requires w.balance == Before(opening, w.rows, |w.rows|)
    requires ref.WithdrawalRef? <==> txn == Withdrawal
    ensures var v := Adjusted(w, delta, txn, booking, ref);
      && v.balance == Before(opening, v.rows, |v.rows|)
      && Effect(opening, v.rows, id) == Effect(opening, w.rows, id)
         + (if ref == WithdrawalRef(id) || ref == RefundRef(id) then delta else 0)
      && (HasDebit(v.rows, id) <==> HasDebit(w.rows, id) || ref == WithdrawalRef(id))
      && (HasRefund(v.rows, id) <==> HasRefund(w.rows, id) || ref == RefundRef(id))
  {
  }

  /** Wallet operations that are none of a withdrawal's. */
  lemma PlainRow(opening: int, d: Desk, delta: int, txn: TxnType, booking: Booking, ref: Ref)
    requires AllSettle(opening, d)
    requires txn != Withdrawal && !ref.WithdrawalRef? && !ref.RefundRef?
    ensures AllSettle(opening, d.(wallet := Adjusted(d.wallet, delta, txn, booking, ref)))
  {
    var c := d.(wallet := Adjusted(d.wallet, delta, txn, booking, ref));
    forall id: nat ensures Settles(opening, c, id) {
      RowEffect(opening, d.wallet, delta, txn, booking, ref, id);
      assert Settles(opening, d, id);
    }
    RowEffect(opening, d.wallet, delta, txn, booking, ref, 0);
  }

  /** A change of one request's row, the ledger as it was. */
  lemma RowOnly(opening: int, d: Desk, id: nat, r: Request)
    requires AllSettle(opening, d)
    requires Settles(opening, d.(requests := d.requests[id := r]), id)
    ensures AllSettle(opening, d.(requests := d.requests[id := r]))
  {
    var c := d.(requests := d.requests[id := r]);
    forall other: nat ensures Settles(opening, c, other) {
      assert Settles(opening, d, other);
    }
  }

  lemma InsertSettles(opening: int, d: Desk, id: nat, amount: int, seen: Seen)
    requires AllSettle(opening, d)
    ensures AllSettle(opening, AfterInsert(d, id, amount, seen))
  {
    if id !in d.requests && MayAsk(amount, seen) {
      assert Settles(opening, d, id);
      RowOnly(opening, d, id, Request(amount, Pending, false, true, false, false));
    }
  }

  /** The row is written and the amount taken. */
  function Taken(d: Desk, id: nat, r: Request): Desk {
    d.(wallet := Adjusted(d.wallet, -r.amount, Withdrawal, NoBooking, WithdrawalRef(id)),
       requests := d.requests[id := r])
  }

  lemma TakenSettles(opening: int, d: Desk, id: nat, r: Request)
    requires AllSettle(opening, d)
    requires id in d.requests && d.requests[id].debitDue
    requires r == d.requests[id].(debitDue := false, awaiting := r.awaiting)
    ensures AllSettle(opening, Taken(d, id, r))
  {
    hide Effect, HasDebit, HasRefund, Before;
    assert Settles(opening, d, id);
    var c := Taken(d, id, r);
    forall other: nat ensures Settles(opening, c, other) {
      assert Settles(opening, d, other);
      RowEffect(opening, d.wallet, -r.amount, Withdrawal, NoBooking, WithdrawalRef(id), other);
    }
    RowEffect(opening, d.wallet, -r.amount, Withdrawal, NoBooking, WithdrawalRef(id), id);
  }

  lemma DebitSettles(opening: int, d: Desk, id: nat, autoPayout: bool)
    requires AllSettle(opening, d)
    ensures AllSettle(opening, AfterDebitWallet(d, id, autoPayout))
  {
    if id in d.requests && d.requests[id].debitDue {
      assert Settles(opening, d, id);
      var r := d.requests[id].(debitDue := false);
      if AfterWithdrawalDebit(d.wallet, r.amount, id).1 {
        TakenSettles(opening, d, id, r.(awaiting := autoPayout));
      } else {
        RowOnly(opening, d, id, r.(status := Rejected));
      }
    }
  }

  lemma RefundSettles(opening: int, d: Desk, id: nat, r: Request)
    requires AllSettle(opening, d) && id in d.requests
    requires r.status.Rejected? && !r.unpaid && (r.awaiting ==> d.requests[id].awaiting)
    requires r.amount == d.requests[id].amount && r.debitDue == d.requests[id].debitDue
    ensures AllSettle(opening, Refunded(d, id, r))
  {
    assert Settles(opening, d, id);
    if HasRefund(d.wallet.rows, id) {
      RowOnly(opening, d, id, r);
    } else {
      hide Effect, HasDebit, Before;
      var c := Refunded(d, id, r);
      forall other: nat ensures Settles(opening, c, other) {
        assert Settles(opening, d, other);
        RowEffect(opening, d.wallet, r.amount, AdminCredit, NoBooking, RefundRef(id), other);
      }
      RowEffect(opening, d.wallet, r.amount, AdminCredit, NoBooking, RefundRef(id), id);
    }
  }

  lemma StepSettles(opening: int, d: Desk, e: Event)
    requires AllSettle(opening, d)
    ensures AllSettle(opening, Step(d, e))
  {
    if e.AutoPayout? || e.Approve? || e.Reject? || e.Webhook? {
      DecisionSettles(opening, d, e);
    } else {
      match e
      case Insert(id, amount, seen) => InsertSettles(opening, d, id, amount, seen);
      case DebitWallet(id, autoPayout) => DebitSettles(opening, d, id, autoPayout);
      case Trip(amount, booking) =>
        PlainRow(opening, d, amount, TripEarningsCredit, ForBooking(booking), NoRef);
      case CashTrip(commission, shield, booking) =>
        PlainRow(opening, d, -RoundToRupee(commission + shield), CashCommissionDeduction, ForBooking(booking), NoRef);
      case Load(amount, order) =>
        PlainRow(opening, d, amount, Topup, NoBooking, OrderRef(order));
      case Adjust(delta) =>
        PlainRow(opening, d, delta, if delta < 0 then AdminDebit else AdminCredit, NoBooking, NoRef);
    }
  }

  /** What these events make of the row of their request. */
  function Decided(d: Desk, e: Event): Desk
    requires e.AutoPayout? || e.Approve? || e.Reject? || e.Webhook?
  {
    Step(d, e).(early := d.early)
  }

  /** They refund it, or change nothing but the row. */
  lemma DecisionShape(d: Desk, e: Event)
    requires (e.AutoPayout? || e.Approve? || e.Reject? || e.Webhook?) && e.id in d.requests
    ensures var c := Decided(d, e);
      e.id in c.requests && var r := c.requests[e.id];
      || (c == Refunded(d, e.id, r) && r.status.Rejected? && !r.unpaid)
      || c == d.(requests := d.requests[e.id := r])
    ensures var c := Decided(d, e);
      e.id in c.requests && c.requests[e.id].amount == d.requests[e.id].amount
      && c.requests[e.id].debitDue == d.requests[e.id].debitDue
      && (c.requests[e.id].awaiting ==> d.requests[e.id].awaiting)
  {
    assert d.requests == d.requests[e.id := d.requests[e.id]];
  }

  lemma DecisionSettles(opening: int, d: Desk, e: Event)
    requires AllSettle(opening, d)
    requires e.AutoPayout? || e.Approve? || e.Reject? || e.Webhook?
    ensures AllSettle(opening, Step(d, e))
  {
    var c := Decided(d, e);
    if e.id in d.requests {
      DecisionShape(d, e);
      var r := c.requests[e.id];
      if c == Refunded(d, e.id, r) && r.status.Rejected? && !r.unpaid {
        RefundSettles(opening, d, e.id, r);
      } else {
        assert Settles(opening, d, e.id);
        RowOnly(opening, d, e.id, r);
      }
    }
    SameButEarly(opening, c, Step(d, e));
  }

  lemma SameButEarly(opening: int, c: Desk, d: Desk)
    requires AllSettle(opening, c) && d.wallet == c.wallet && d.requests == c.requests
    ensures AllSettle(opening, d)
  {
    forall id: nat ensures Settles(opening, d, id) {
      assert Settles(opening, c, id);
    }
  }

  /** Without early decisions: only what was debited is decided upon. */
  predicate Fair(d: Desk, id: nat) {
    id in d.requests ==>
      var r := d.requests[id];
      && (WasRefunded(d, id) ==> Debited(d, id))
      && (!Debited(d, id) ==>
            r == Request(r.amount, if r.debitDue then Pending else Rejected, false, r.debitDue, false, false))
  }

  ghost predicate AllFair(d: Desk) {
    forall id: nat :: Fair(d, id)
  }

  lemma RowsAfter(d: Desk, e: Event, id: nat)
    ensures var c := Step(d, e);
      && (HasDebit(d.wallet.rows, id) ==> HasDebit(c.wallet.rows, id))
      && (HasDebit(c.wallet.rows, id) ==> HasDebit(d.wallet.rows, id) || (e.DebitWallet? && e.id == id))
      && (HasRefund(d.wallet.rows, id) ==> HasRefund(c.wallet.rows, id))
      && (HasRefund(c.wallet.rows, id) ==>
            HasRefund(d.wallet.rows, id) || ((e.AutoPayout? || e.Reject? || e.Webhook?) && e.id == id))
  {
    var c := Step(d, e);
    var n := |d.wallet.rows|;
    assert c.wallet.rows == d.wallet.rows || (|c.wallet.rows| == n + 1 && c.wallet.rows[..n] == d.wallet.rows);
    if i :| 0 <= i < n && d.wallet.rows[i].txn == Withdrawal && d.wallet.rows[i].ref == WithdrawalRef(id) {
      assert c.wallet.rows[i] == d.wallet.rows[i];
    }
    if i :| 0 <= i < n && d.wallet.rows[i].ref == RefundRef(id) {
      assert c.wallet.rows[i] == d.wallet.rows[i];
    }
  }

  lemma DebitShape(d: Desk, id: nat, autoPayout: bool)
    requires id in d.requests && d.requests[id].debitDue && !Debited(d, id)
    ensures var c := AfterDebitWallet(d, id, autoPayout);
      var r := d.requests[id].(debitDue := false);
      if Debited(c, id) then c.requests == d.requests[id := r.(awaiting := autoPayout)]
      else c.requests == d.requests[id := r.(status := Rejected)]
  {
    var c := AfterDebitWallet(d, id, autoPayout);
    var n := |d.wallet.rows|;
    if AfterWithdrawalDebit(d.wallet, d.requests[id].amount, id).1 {
      assert c.wallet.rows[n].txn == Withdrawal && c.wallet.rows[n].ref == WithdrawalRef(id);
    }
  }

  lemma StepFair(opening: int, d: Desk, e: Event)
    requires AllSettle(opening, d) && AllFair(d) && Step(d, e).early == d.early
    ensures AllFair(Step(d, e))
  {
    var c := Step(d, e);
    forall id: nat ensures Fair(c, id) {
      assert Settles(opening, d, id) && Fair(d, id);
      RowsAfter(d, e, id);
      if e.DebitWallet? && e.id == id && id in d.requests && d.requests[id].debitDue {
        DebitShape(d, id, e.autoPayout);
      }
      hide HasDebit, HasRefund, Effect;
    }
  }

  /** Every ledger row of a withdrawal carries the amount of its request. */
  ghost predicate RowsMatch(d: Desk) {
    && (forall id :: id in d.requests ==> d.requests[id].amount > 0)
    && forall i :: 0 <= i < |d.wallet.rows| ==> RowMatches(d.requests, d.wallet.rows[i])
  }

  predicate RowMatches(requests: map<nat, Request>, r: Row) {
    r.ref.WithdrawalRef? || r.ref.RefundRef? ==> r.ref.id in requests && r.amount == requests[r.ref.id].amount
  }

  lemma AmountsStay(d: Desk, e: Event)
    requires RowsMatch(d)
    ensures var c := Step(d, e);
      && (forall id :: id in d.requests ==> id in c.requests && c.requests[id].amount == d.requests[id].amount)
      && (forall id :: id in c.requests ==> c.requests[id].amount > 0)
  {
    if e.AutoPayout? || e.Approve? || e.Reject? || e.Webhook? {
      if e.id in d.requests {
        DecisionShape(d, e);
        assert Step(d, e).requests == Decided(d, e).requests;
        hide Step, Decided;
      }
    }
    hide HasDebit, HasRefund, RoundToRupee;
  }

  /** The ledger grows by at most one row, and that row matches. */
  lemma NewRowMatches(d: Desk, e: Event)
    requires RowsMatch(d)
    ensures var c := Step(d, e);
      var n := |d.wallet.rows|;
      || c.wallet.rows == d.wallet.rows
      || (|c.wallet.rows| == n + 1 && c.wallet.rows[..n] == d.wallet.rows && RowMatches(c.requests, c.wallet.rows[n]))
  {
    hide HasDebit, HasRefund, HasTripRow, RoundToRupee;
  }

  lemma StepRowsMatch(d: Desk, e: Event)
    requires RowsMatch(d)
    ensures RowsMatch(Step(d, e))
  {
    AmountsStay(d, e);
    NewRowMatches(d, e);
    hide Step;
    var c := Step(d, e);
    forall i | 0 <= i < |c.wallet.rows| ensures RowMatches(c.requests, c.wallet.rows[i]) {
      if i < |d.wallet.rows| {
        assert c.wallet.rows[i] == d.wallet.rows[i];
      }
    }
  }

  lemma StepWalletSound(opening: int, d: Desk, e: Event)
    requires Sound(opening, d.wallet)
    ensures Sound(opening, Step(d, e).wallet)
  {
    hide Sound;
    var w, v := d.wallet, Step(d, e).wallet;
    match e
    case Insert(id, amount, seen) =>
    case DebitWallet(id, autoPayout) =>
      if id in d.requests {
        StepSound(opening, w, DriverWallet.Debit(d.requests[id].amount, id));
      }
    case AutoPayout(id, answer, paid) => RefundKeepsSound(opening, d, id);
    case Approve(id, automated) =>
    case Reject(id, paid) => RefundKeepsSound(opening, d, id);
    case Webhook(id, verdict, paid) => RefundKeepsSound(opening, d, id);
    case Trip(amount, booking) => StepSound(opening, w, DriverWallet.TripEarnings(amount, booking));
    case CashTrip(commission, shield, booking) =>
      StepSound(opening, w, DriverWallet.CashCommission(commission, shield, booking));
    case Load(amount, order) => StepSound(opening, w, DriverWallet.TopUp(amount, order));
    case Adjust(delta) => StepSound(opening, w, DriverWallet.Admin(delta));
  }

  lemma RefundKeepsSound(opening: int, d: Desk, id: nat)
    requires Sound(opening, d.wallet)
    ensures id in d.requests ==> Sound(opening, AfterWithdrawalRefund(d.wallet, d.requests[id].amount, id))
  {
    if id in d.requests {
      DriverWallet.RefundSound(opening, d.wallet, d.requests[id].amount, id);
    }
  }

  ghost predicate Holds(opening: int, d: Desk) {
    Sound(opening, d.wallet) && RowsMatch(d) && AllSettle(opening, d) && (d.early == 0 ==> AllFair(d))
  }

  lemma StepHolds(opening: int, d: Desk, e: Event)
    requires Holds(opening, d)
    ensures Holds(opening, Step(d, e))
  {
    StepWalletSound(opening, d, e);
    StepRowsMatch(d, e);
    StepSettles(opening, d, e);
    NoDecision(d, e);
    hide Sound, RowsMatch, AllSettle, AllFair;
    if Step(d, e).early == 0 {
      StepFair(opening, d, e);
    }
  }

  lemma RunHolds(opening: int, es: seq<Event>)
    ensures Holds(opening, Runs.Run(Step, Init(opening), es))
  {
    assert Holds(opening, Init(opening));
    hide Holds, Step;
    forall d, e | Holds(opening, d) ensures Holds(opening, Step(d, e)) {
      StepHolds(opening, d, e);
    }
    Runs.RunKeeps(Step, d => Holds(opening, d), Init(opening), es);
  }

  /** Over every run: a withdrawal is debited at most once and refunded at most once, both for
      its own amount; its effect on the wallet is minus its amount if it was debited, and plus
      its amount if it was refunded; a rejected one that was debited has been refunded, unless
      that refund failed. As long as no admin decides on a request whose debit is still due,
      only a debited one is refunded, and one that was not debited is rejected or still due. */
  lemma WithdrawalSettles(opening: int, es: seq<Event>, id: nat)
    ensures var d := Runs.Run(Step, Init(opening), es);
      && NoDoubles(d.wallet.rows)
      && RowsMatch(d)
      && (Debited(d, id) || WasRefunded(d, id) ==> id in d.requests)
      && (id in d.requests ==>
            var r := d.requests[id];
            && Effect(opening, d.wallet.rows, id)
               == (if Debited(d, id) then -r.amount else 0) + (if WasRefunded(d, id) then r.amount else 0)
            && (Debited(d, id) && r.status.Rejected? ==> (WasRefunded(d, id) <==> !r.unpaid))
            && (d.early == 0 ==>
                  && (WasRefunded(d, id) ==> Debited(d, id))
                  && (!Debited(d, id) ==> r.status.Rejected? || r.debitDue)))
  {
    RunHolds(opening, es);
    var d := Runs.Run(Step, Init(opening), es);
    assert Settles(opening, d, id);
    assert d.early == 0 ==> Fair(d, id);
  }

  /** Nothing tries a failed refund again: a rejected withdrawal that was debited and not
      refunded is refunded by the next event if and only if that is the late answer of its
      automatic payout; and otherwise its row stays as it is unless its transfer is reported
      successful. */
  lemma UnpaidStays(opening: int, es: seq<Event>, e: Event, id: nat)
    ensures var d := Runs.Run(Step, Init(opening), es);
      id in d.requests && d.requests[id].status.Rejected? && Debited(d, id) && !WasRefunded(d, id) ==>
        var r := d.requests[id];
        && (WasRefunded(Step(d, e), id) <==> e == AutoPayout(id, Failed, true) && r.awaiting)
        && (!(e.AutoPayout? && e.id == id && r.awaiting) ==>
              id in Step(d, e).requests
              && Step(d, e).requests[id] ==
                 if e.Webhook? && e.id == id && e.verdict.Success? && r.payoutId then r.(status := Completed) else r)
  {
    RunHolds(opening, es);
    var d := Runs.Run(Step, Init(opening), es);
    assert Settles(opening, d, id);
    if id in d.requests && d.requests[id].status.Rejected? && Debited(d, id) && !WasRefunded(d, id) {
      hide *;
      UnpaidStep(opening, d, e, id);
    }
  }

  lemma UnpaidStep(opening: int, d: Desk, e: Event, id: nat)
    requires Settles(opening, d, id)
    requires id in d.requests && d.requests[id].status.Rejected? && Debited(d, id) && !WasRefunded(d, id)
    ensures var r := d.requests[id];
      && (WasRefunded(Step(d, e), id) <==> e == AutoPayout(id, Failed, true) && r.awaiting)
      && (!(e.AutoPayout? && e.id == id && r.awaiting) ==>
            id in Step(d, e).requests
            && Step(d, e).requests[id] ==
               if e.Webhook? && e.id == id && e.verdict.Success? && r.payoutId then r.(status := Completed) else r)
  {
    var c := Step(d, e);
    RowsAfter(d, e, id);
    if e == AutoPayout(id, Failed, true) && d.requests[id].awaiting {
      assert c.wallet.rows[|d.wallet.rows|].ref == RefundRef(id);
    } else {
      hide HasRefund, HasDebit;
    }
  }

  /** The refund of a failed transfer fails; the gateway repeats its webhook, and nothing more
      happens. */
  lemma FailedRefundIsLost()
    ensures var d := Runs.Run(Step, Init(60000),
        [Insert(7, 50000, Seen(60000, false, false, true)), DebitWallet(7, true), AutoPayout(7, Accepted, true),
         Webhook(7, Failure, false), Webhook(7, Failure, true)]);
      && 7 in d.requests && d.requests[7].status.Rejected?
      && Debited(d, 7) && !WasRefunded(d, 7) && d.wallet.balance == 10000
  {
    var es := [Insert(7, 50000, Seen(60000, false, false, true)), DebitWallet(7, true), AutoPayout(7, Accepted, true),
         Webhook(7, Failure, false), Webhook(7, Failure, true)];
    var d0 := Init(60000);
    var d1 := Step(d0, es[0]);
    var d2 := Step(d1, es[1]);
    assert d2.wallet.rows == [Row(Withdrawal, 50000, 10000, NoBooking, WithdrawalRef(7))];
    assert d2.wallet.rows[0].ref == WithdrawalRef(7);
    var d3 := Step(d2, es[2]);
    var d4 := Step(d3, es[3]);
    assert d4.requests[7] == Request(50000, Rejected, true, false, false, true);
    Runs.RunTrace(Step, es, [d0, d1, d2, d3, d4, Step(d4, es[4])]);
  }

  predicate RefundedForNothing(d: Desk, id: nat) {
    WasRefunded(d, id) && !Debited(d, id)
  }

  /** The decisions that refund a withdrawal not yet debited: an admin's rejection while its
      debit is due, or a failure webhook for a transfer that an admin's approval created. */
  predicate RefundsUndebited(d: Desk, e: Event, id: nat) {
    id in d.requests && var r := d.requests[id];
      || (e == Reject(id, true) && r.debitDue && !r.status.Completed? && !r.status.Rejected?)
      || (e == Webhook(id, Failure, true) && r.payoutId && !r.status.Rejected?)
  }

  /** After every run: a driver who has not been given back what was not taken is so next if
      and only if the withdrawal has not been debited and the event is such a decision; in a
      run without early decisions, only an admin's rejection while the debit is due. */
  lemma RefundedForNothingExactly(opening: int, es: seq<Event>, e: Event, id: nat)
    ensures var d := Runs.Run(Step, Init(opening), es);
      && (!RefundedForNothing(d, id) ==>
            (RefundedForNothing(Step(d, e), id) <==> !Debited(d, id) && RefundsUndebited(d, e, id)))
      && (d.early == 0 ==>
            (RefundedForNothing(Step(d, e), id) <==>
               e == Reject(id, true) && id in d.requests && d.requests[id].debitDue))
  {
    var d := Runs.Run(Step, Init(opening), es);
    RunHolds(opening, es);
    assert Settles(opening, d, id);
    hide *;
    if !RefundedForNothing(d, id) {
      UndebitedStep(opening, d, e, id);
    }
    if d.early == 0 {
      EarlyRejection(opening, d, e, id);
    }
  }

  lemma UndebitedStep(opening: int, d: Desk, e: Event, id: nat)
    requires Settles(opening, d, id) && !RefundedForNothing(d, id)
    ensures RefundedForNothing(Step(d, e), id) <==> !Debited(d, id) && RefundsUndebited(d, e, id)
  {
    var c := Step(d, e);
    RowsAfter(d, e, id);
    if !Debited(d, id) && RefundsUndebited(d, e, id) {
      assert c.wallet.rows[|d.wallet.rows|].ref == RefundRef(id);
    } else {
      hide HasDebit, HasRefund, Effect;
    }
  }

  lemma EarlyRejection(opening: int, d: Desk, e: Event, id: nat)
    requires Holds(opening, d) && d.early == 0
    ensures RefundedForNothing(Step(d, e), id) <==> e == Reject(id, true) && id in d.requests && d.requests[id].debitDue
  {
    NoDecision(d, e);
    if Step(d, e).early == 0 {
      StepSettles(opening, d, e);
      StepFair(opening, d, e);
      hide *;
      SettledFairly(opening, Step(d, e), id);
    } else {
      EarlyDecision(opening, d, e, id);
    }
  }

  lemma SettledFairly(opening: int, d: Desk, id: nat)
    requires AllSettle(opening, d) && AllFair(d)
    ensures !RefundedForNothing(d, id)
  {
    assert Settles(opening, d, id) && Fair(d, id);
  }

  /** What raises the count of early decisions. */
  lemma NoDecision(d: Desk, e: Event)
    ensures Step(d, e).early == d.early <==>
      !((e.Approve? || e.Reject?) && e.id in d.requests && d.requests[e.id].debitDue)
  {
  }

  lemma EarlyDecision(opening: int, d: Desk, e: Event, id: nat)
    requires AllSettle(opening, d) && AllFair(d)
    requires (e.Approve? || e.Reject?) && e.id in d.requests && d.requests[e.id].debitDue
    ensures RefundedForNothing(Step(d, e), id) <==> e == Reject(id, true)
  {
    assert Settles(opening, d, e.id) && Fair(d, e.id);
    SettledFairly(opening, d, id);
    RowsAfter(d, e, id);
    if e.Reject? && e.paid {
      assert Step(d, e).wallet.rows[|d.wallet.rows|].ref == RefundRef(e.id);
    }
  }

  /** Rejected before its debit, which then fails: the driver is refunded what was never
      taken. */
  lemma EarlyRejectionPaysForNothing()
    ensures var d := Runs.Run(Step, Init(-100),
        [Insert(7, 50000, Seen(60000, false, false, true)), Reject(7, true), DebitWallet(7, true)]);
      WasRefunded(d, 7) && !Debited(d, 7) && d.wallet.balance == 49900 && d.early == 1
  {
    var es := [Insert(7, 50000, Seen(60000, false, false, true)), Reject(7, true), DebitWallet(7, true)];
    var d0 := Init(-100);
    var d1 := Step(d0, es[0]);
    var d2 := Step(d1, es[1]);
    assert d2.wallet.rows == [Row(AdminCredit, 50000, 49900, NoBooking, RefundRef(7))];
    assert d2.wallet.rows[0].ref == RefundRef(7);
    assert d2.requests[7] == Request(50000, Rejected, false, true, false, false);
    Runs.RunTrace(Step, es, [d0, d1, d2, Step(d2, es[2])]);
  }

  /** Approved before its debit, refunded when the transfer fails, and then not debited: nobody
      rejected anything. */
  lemma EarlyApprovalPaysForNothing()
    ensures var d := Runs.Run(Step, Init(-100),
        [Insert(7, 50000, Seen(60000, false, false, true)), Approve(7, true), Webhook(7, Failure, true),
         DebitWallet(7, true)]);
      WasRefunded(d, 7) && !Debited(d, 7) && d.wallet.balance == 49900 && d.early == 1
  {
    var es := [Insert(7, 50000, Seen(60000, false, false, true)), Approve(7, true), Webhook(7, Failure, true),
         DebitWallet(7, true)];
    var d0 := Init(-100);
    var d1 := Step(d0, es[0]);
    var d2 := Step(d1, es[1]);
    assert d2.requests[7] == Request(50000, Processing, true, true, false, false);
    var d3 := Step(d2, es[2]);
    assert d3.wallet.rows == [Row(AdminCredit, 50000, 49900, NoBooking, RefundRef(7))];
    assert d3.wallet.rows[0].ref == RefundRef(7);
    assert d3.requests[7] == Request(50000, Rejected, true, true, false, false);
    Runs.RunTrace(Step, es, [d0, d1, d2, d3, Step(d3, es[3])]);
  }

  // ---------------------------------------------------------------------------------------
  // Paid out and refunded
  // ---------------------------------------------------------------------------------------

  predicate PaidAndRefunded(d: Desk, id: nat) {
    id in d.requests && d.requests[id].status.Completed? && WasRefunded(d, id)
  }

  /** The guard that would prevent it is the refund's ledger row, which the webhook does not
      read: after any run, exactly one kind of event completes a refunded withdrawal. */
  lemma PaidAndRefundedExactly(opening: int, es: seq<Event>, e: Event, id: nat)
    ensures var d := Runs.Run(Step, Init(opening), es);
      !PaidAndRefunded(d, id) ==>
        (PaidAndRefunded(Step(d, e), id) <==>
           && e.Webhook? && e.id == id && e.verdict.Success?
           && WasRefunded(d, id) && id in d.requests && d.requests[id].payoutId)
  {
    var d := Runs.Run(Step, Init(opening), es);
    RunHolds(opening, es);
    assert Settles(opening, d, id);
    hide *;
    PaidAndRefundedStep(opening, d, e, id);
  }

  lemma PaidAndRefundedStep(opening: int, d: Desk, e: Event, id: nat)
    requires Settles(opening, d, id)
    ensures !PaidAndRefunded(d, id) ==>
        (PaidAndRefunded(Step(d, e), id) <==>
           && e.Webhook? && e.id == id && e.verdict.Success?
           && WasRefunded(d, id) && id in d.requests && d.requests[id].payoutId)
  {
    hide Step, Settles, HasRefund;
    RefundsStay(d, e, id);
    if WasRefunded(d, id) && !PaidAndRefunded(d, id) {
      CompletingRefunded(opening, d, e, id);
    }
  }

  lemma RefundsStay(d: Desk, e: Event, id: nat)
    ensures WasRefunded(d, id) ==> WasRefunded(Step(d, e), id)
    ensures !WasRefunded(d, id) ==> !PaidAndRefunded(Step(d, e), id)
  {
    RowsAfter(d, e, id);
    hide HasRefund;
  }

  lemma CompletingRefunded(opening: int, d: Desk, e: Event, id: nat)
    requires Settles(opening, d, id) && WasRefunded(d, id) && !PaidAndRefunded(d, id)
    ensures id in d.requests && id in Step(d, e).requests
    ensures Step(d, e).requests[id].status.Completed? <==>
      e.Webhook? && e.id == id && e.verdict.Success? && d.requests[id].payoutId
  {
  }

  /** A failed transfer is refunded, then reported successful: the withdrawal ends completed
      and has cost the driver nothing. */
  lemma LateSuccessPaysTwice()
    ensures var d := Runs.Run(Step, Init(60000),
        [Insert(7, 50000, Seen(60000, false, false, true)), DebitWallet(7, true), AutoPayout(7, Accepted, true),
         Webhook(7, Failure, true), Webhook(7, Success, true)]);
      PaidAndRefunded(d, 7) && d.wallet.balance == 60000 && d.early == 0
  {
    var es := [Insert(7, 50000, Seen(60000, false, false, true)), DebitWallet(7, true), AutoPayout(7, Accepted, true),
         Webhook(7, Failure, true), Webhook(7, Success, true)];
    var d0 := Init(60000);
    var d1 := Step(d0, es[0]);
    var d2 := Step(d1, es[1]);
    assert d2.wallet.rows == [Row(Withdrawal, 50000, 10000, NoBooking, WithdrawalRef(7))];
    var d3 := Step(d2, es[2]);
    assert !HasRefund(d3.wallet.rows, 7);
    var d4 := Step(d3, es[3]);
    assert d4.wallet.rows[1] == Row(AdminCredit, 50000, 60000, NoBooking, RefundRef(7));
    Runs.RunTrace(Step, es, [d0, d1, d2, d3, d4, Step(d4, es[4])]);
  }

  // ---------------------------------------------------------------------------------------
  // What the decisions mean
  // ---------------------------------------------------------------------------------------

  /** A request is entered exactly when the wallet is not frozen, nothing is open, and the amount
      is neither below the minimum of 500 rupees for a two-wheeler and 1000 for others nor above
      the balance that was read; it is entered as pending, with its debit to come. */
  lemma AskedExactly(d: Desk, id: nat, amount: int, seen: Seen)
    requires id !in d.requests
    ensures var c := Step(d, Insert(id, amount, seen));
      && (id in c.requests <==>
            && !seen.frozen && !seen.openRequest && amount <= seen.balance
            && (if seen.twoWheeler then 50000 else 100000) <= amount)
      && (id in c.requests ==> c.requests[id] == Request(amount, Pending, false, true, false, false))
      && c.requests - {id} == d.requests
      && c.wallet == d.wallet
  {
  }

  /** The other events are the wallet's own, and touch no request. */
  lemma WalletEventsOnly(d: Desk, amount: int, booking: nat, shield: int, order: nat)
    ensures Step(d, Trip(amount, booking)) ==
      d.(wallet := DriverWallet.Step(d.wallet, DriverWallet.TripEarnings(amount, booking)))
    ensures Step(d, CashTrip(amount, shield, booking)) ==
      d.(wallet := DriverWallet.Step(d.wallet, DriverWallet.CashCommission(amount, shield, booking)))
    ensures Step(d, Load(amount, order)) == d.(wallet := DriverWallet.Step(d.wallet, DriverWallet.TopUp(amount, order)))
    ensures Step(d, Adjust(amount)) == d.(wallet := DriverWallet.Step(d.wallet, DriverWallet.Admin(amount)))
  {
  }

  /** A row an approval acts on: neither decided nor on its way to the bank. */
  predicate OpenForApproval(r: Request) {
    r.status.Pending? || (r.status.Processing? && !r.payoutId)
  }

  /** For every event: a row becomes completed exactly by a manual approval of an open row or a
      success webhook for its transfer; it is put in processing exactly by an automated approval
      of an open row or the gateway's acceptance of its automatic payout, which are also what
      stores a transfer on it. */
  lemma RowChangesExactly(d: Desk, e: Event, id: nat)
    requires id in d.requests
    ensures var r := d.requests[id];
      id in Step(d, e).requests && var c := Step(d, e).requests[id];
      var accepted := e.AutoPayout? && e.id == id && e.answer.Accepted? && r.awaiting;
      var automated := e == Approve(id, true) && OpenForApproval(r);
      && (!r.status.Completed? ==>
            (c.status.Completed? <==>
               || (e == Approve(id, false) && OpenForApproval(r))
               || (e.Webhook? && e.id == id && e.verdict.Success? && r.payoutId)))
      && (c.status.Processing? <==>
            accepted || automated || (r.status.Processing? && !c.status.Completed? && !c.status.Rejected?))
      && (c.payoutId <==> r.payoutId || accepted || automated)
      && c.amount == r.amount
  {
  }

  /** And it becomes rejected exactly when its debit fails, its automatic payout or its stored
      transfer fails, or an admin's refund of it goes through. */
  lemma RejectedExactly(d: Desk, e: Event, id: nat)
    requires id in d.requests && !d.requests[id].status.Rejected?
    ensures var r := d.requests[id];
      id in Step(d, e).requests &&
      (Step(d, e).requests[id].status.Rejected? <==>
         || (e.DebitWallet? && e.id == id && r.debitDue && !Debited(d, id) && r.amount > d.wallet.balance)
         || (e.AutoPayout? && e.id == id && e.answer.Failed? && r.awaiting)
         || (e == Reject(id, true) && !r.status.Completed?)
         || (e.Webhook? && e.id == id && e.verdict.Failure? && r.payoutId))
  {
    hide HasRefund;
  }

  /** What a manual approval settles: no transfer, no debit and no answer is outstanding. */
  predicate Settled(d: Desk, id: nat) {
    id in d.requests && var r := d.requests[id];
      (r.status.Completed? || r.status.Rejected?) && !r.payoutId && !r.awaiting && !r.debitDue
  }

  lemma StepSettled(d: Desk, e: Event, id: nat)
    requires Settled(d, id)
    ensures Settled(Step(d, e), id) && WasRefunded(Step(d, e), id) == WasRefunded(d, id)
  {
    RowsAfter(d, e, id);
    hide HasDebit, HasRefund;
    if e.AutoPayout? || e.Reject? || e.Webhook? {
      assert e.id == id ==> Step(d, e).wallet == d.wallet;
    }
  }

  ghost predicate RefundedLater(d: Desk, id: nat) {
    exists more: seq<Event> :: WasRefunded(Runs.Run(Step, d, more), id)
  }

  /** A manual approval of an open row that has no transfer and awaits no answer: after any run,
      the withdrawal can be refunded in some continuation if and only if its debit was due
      still, because a request that is debited only then may go on to an automatic payout. */
  lemma ManualApprovalFinal(opening: int, es: seq<Event>, id: nat)
    ensures var d := Runs.Run(Step, Init(opening), es);
      id in d.requests && OpenForApproval(d.requests[id]) && !d.requests[id].payoutId && !d.requests[id].awaiting
        && !WasRefunded(d, id) ==>
        (RefundedLater(Step(d, Approve(id, false)), id) <==> d.requests[id].debitDue)
  {
    var d := Runs.Run(Step, Init(opening), es);
    RunHolds(opening, es);
    assert Settles(opening, d, id);
    hide *;
    if id in d.requests && OpenForApproval(d.requests[id]) && !d.requests[id].payoutId && !d.requests[id].awaiting
       && !WasRefunded(d, id) {
      if d.requests[id].debitDue {
        EarlyApprovalReopens(opening, d, id);
      } else {
        ApprovalSettles(d, id);
      }
    }
  }

  lemma ApprovalSettles(d: Desk, id: nat)
    requires id in d.requests && OpenForApproval(d.requests[id]) && !d.requests[id].payoutId
    requires !d.requests[id].awaiting && !d.requests[id].debitDue && !WasRefunded(d, id)
    ensures !RefundedLater(Step(d, Approve(id, false)), id)
  {
    var c := Step(d, Approve(id, false));
    assert Settled(c, id) && !WasRefunded(c, id);
    hide Settled, WasRefunded;
    forall more: seq<Event> ensures !WasRefunded(Runs.Run(Step, c, more), id) {
      forall v, e | Settled(v, id) && !WasRefunded(v, id)
        ensures Settled(Step(v, e), id) && !WasRefunded(Step(v, e), id)
      {
        StepSettled(v, e, id);
      }
      Runs.RunKeeps(Step, v => Settled(v, id) && !WasRefunded(v, id), c, more);
    }
  }

  lemma EarlyApprovalReopens(opening: int, d: Desk, id: nat)
    requires Settles(opening, d, id)
    requires id in d.requests && OpenForApproval(d.requests[id]) && d.requests[id].debitDue && !WasRefunded(d, id)
    ensures RefundedLater(Step(d, Approve(id, false)), id)
  {
    var c := Step(d, Approve(id, false));
    var r := c.requests[id];
    assert c.wallet == d.wallet && r.debitDue && !HasDebit(c.wallet.rows, id);
    var es := [Adjust(Abs(r.amount) + Abs(c.wallet.balance)), DebitWallet(id, true), AutoPayout(id, Failed, true)];
    var c1 := Step(c, es[0]);
    assert c1.requests == c.requests && r.amount <= c1.wallet.balance;
    RowsAfter(c, es[0], id);
    var c2 := Step(c1, es[1]);
    assert id in c2.requests && c2.requests[id].awaiting by {
      hide HasRefund;
    }
    RowsAfter(c1, es[1], id);
    var c3 := Step(c2, es[2]);
    assert c3.wallet.rows[|c2.wallet.rows|].ref == RefundRef(id);
    assert WasRefunded(c3, id);
    Runs.RunTrace(Step, es, [c, c1, c2, c3]);
    assert WasRefunded(Runs.Run(Step, c, es), id);
  }

  // ---------------------------------------------------------------------------------------
  // The services
  // ---------------------------------------------------------------------------------------

  datatype Reply = Done | NotFound | Refused | RefundFailed

  class WithdrawalDesk {
    const wallet: DriverWalletService
    var requests: map<nat, Request>
    ghost var early: nat

    ghost function State(): Desk
      reads this, wallet
    {
      Desk(wallet.State(), requests, early)
    }

    constructor (wallet: DriverWalletService)
      ensures this.wallet == wallet && State() == Desk(wallet.State(), map[], 0)
    {
      this.wallet := wallet;
      requests := map[];
      early := 0;
    }

    /** Checks, then inserts the request, then debits; a failed debit voids the row. */
    method RequestWithdrawal(id: nat, amount: int, seen: Seen, autoPayout: bool) returns (reply: Reply)
      requires id !in requests
      modifies this, wallet
      ensures State() == AfterDebitWallet(AfterInsert(old(State()), id, amount, seen), id, autoPayout)
      ensures reply.Done? <==> id in requests && requests[id].status.Pending?
    {
      if !MayAsk(amount, seen) {
        return Refused;
      }
      requests := requests[id := Request(amount, Pending, false, true, false, false)];
      var ok := wallet.WithdrawalDebit(amount, id);
      if !ok {
        requests := requests[id := requests[id].(debitDue := false, status := Rejected)];
        return Refused;
      }
      requests := requests[id := requests[id].(debitDue := false, awaiting := autoPayout)];
      return Done;
    }

    /** Saved as rejected, then refunded if the refund does not fail. */
    method Fail(id: nat, paid: bool)
      requires id in requests
      modifies this, wallet
      ensures State() == AfterFailure(old(State()), id, old(requests)[id], paid)
    {
      var r := requests[id];
      requests := requests[id := r.(status := Rejected, unpaid := !paid && !HasRefund(wallet.rows, id))];
      if paid {
        var balance := wallet.WithdrawalRefund(r.amount, id);
      }
    }

    /** The rest of a request, once the payout gateway has answered. */
    method FinishAutoPayout(id: nat, answer: Transfer, paid: bool)
      modifies this, wallet
      ensures State() == AfterAutoPayout(old(State()), id, answer, paid)
    {
      if id !in requests || !requests[id].awaiting {
        return;
      }
      requests := requests[id := requests[id].(awaiting := false)];
      match answer {
        case Failed =>
          Fail(id, paid);
        case Accepted =>
          requests := requests[id := requests[id].(status := Processing, payoutId := true)];
        case NoAnswer =>
      }
    }

    method ApproveWithdrawal(id: nat, automated: bool) returns (reply: Reply)
      modifies this
      ensures State() == Counted(AfterApprove(old(State()), id, automated), old(State()), id)
      ensures reply.NotFound? <==> id !in old(requests)
      ensures reply.Refused? <==> id in old(requests) && var r := old(requests)[id];
                r.status.Rejected? || (r.status.Processing? && r.payoutId)
    {
      if id !in requests {
        return NotFound;
      }
      var r := requests[id];
      if r.debitDue {
        early := early + 1;
      }
      if r.status.Completed? {
        return Done;
      }
      if r.status.Rejected? || (r.status.Processing? && r.payoutId) {
        return Refused;
      }
      if automated {
        requests := requests[id := r.(status := Processing, payoutId := true)];
      } else {
        requests := requests[id := r.(status := Completed)];
      }
      return Done;
    }

    method RejectWithdrawal(id: nat, paid: bool) returns (reply: Reply)
      modifies this, wallet
      ensures State() == Counted(AfterReject(old(State()), id, paid), old(State()), id)
      ensures reply.NotFound? <==> id !in old(requests)
      ensures reply.Refused? <==> id in old(requests) && old(requests)[id].status.Completed?
    {
      if id !in requests {
        return NotFound;
      }
      var r := requests[id];
      if r.debitDue {
        early := early + 1;
      }
      if r.status.Completed? {
        return Refused;
      }
      if r.status.Rejected? {
        return Done;
      }
      if !paid {
        return RefundFailed;
      }
      var balance := wallet.WithdrawalRefund(r.amount, id);
      requests := requests[id := r.(status := Rejected, unpaid := false)];
      return Done;
    }

    method HandlePayoutWebhook(id: nat, verdict: Verdict, paid: bool)
      modifies this, wallet
      ensures State() == AfterWebhook(old(State()), id, verdict, paid)
    {
      if id !in requests || !requests[id].payoutId {
        return;
      }
      var r := requests[id];
      if verdict.Success? {
        if !r.status.Completed? {
          requests := requests[id := r.(status := Completed)];
        }
      } else if verdict.Failure? {
        if !r.status.Rejected? {
          Fail(id, paid);
        }
      }
    }
  }
}
