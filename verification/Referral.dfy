/** Applying a referral code, and paying a referral out on the referee's completed rides. */
module Referral {
  import opened Options
  import Runs

  datatype Status = Pending | Rewarded

  datatype Referral = Referral(
    referrer: nat,
    referee: nat,
    device: Option<nat>,
    refereeCoins: nat,
    referrerCoins: nat)

  // ---------------------------------------------------------------------------------------
  // The payout: any number of ride completions at once
  // ---------------------------------------------------------------------------------------

  /** What one call of the payout has done. `Claimed` won the conditional flip; `PaidReferee`
      has made the first credit; `MustRevert` failed to make one and has yet to put the row
      back to pending. */
  datatype Stage = HasRow | Claimed | PaidReferee | MustRevert | Ended

  /** `claimedBy` is the completion recorded on the row as the qualifying one. `toReferee` and
      `toReferrer` count the credits made; `failedSeconds` counts calls that
      paid the referee and then failed to pay the referrer. */
  datatype Payout = Payout(
    status: Status,
    claimedBy: Option<nat>,
    calls: map<nat, Stage>,
    refereeBalance: int,
    referrerBalance: int,
    toReferee: nat,
    toReferrer: nat,
    failedSeconds: nat)

  datatype Event =
    | Find(call: nat)
    | Claim(call: nat, enabled: bool)
    | PayReferee(call: nat, ok: bool)
    | PayReferrer(call: nat, ok: bool)
    | Revert(call: nat)

  function At(p: Payout, call: nat): Option<Stage> {
    if call in p.calls then Some(p.calls[call]) else None
  }

  function Goes(p: Payout, call: nat, stage: Stage): Payout {
    p.(calls := p.calls[call := stage])
  }

  function Step(r: Referral, p: Payout, e: Event): Payout {
    match e
    case Find(call) =>
      if call in p.calls then p else Goes(p, call, if p.status.Pending? then HasRow else Ended)
    case Claim(call, enabled) =>
      if At(p, call) != Some(HasRow) then p
      else if enabled && p.status.Pending? then Goes(p, call, Claimed).(status := Rewarded, claimedBy := Some(call))
      else Goes(p, call, Ended)
    case PayReferee(call, ok) =>
      if At(p, call) != Some(Claimed) then p
      else if ok then
        Goes(p, call, PaidReferee).(refereeBalance := p.refereeBalance + r.refereeCoins, toReferee := p.toReferee + 1)
      else Goes(p, call, MustRevert)
    case PayReferrer(call, ok) =>
      if At(p, call) != Some(PaidReferee) then p
      else if ok then
        Goes(p, call, Ended).(referrerBalance := p.referrerBalance + r.referrerCoins, toReferrer := p.toReferrer + 1)
      else Goes(p, call, MustRevert).(failedSeconds := p.failedSeconds + 1)
    case Revert(call) =>
      if At(p, call) != Some(MustRevert) then p else Goes(p, call, Ended).(status := Pending, claimedBy := None)
  }

  function Init(referee: int, referrer: int): Payout {
    Payout(Pending, None, map[], referee, referrer, 0, 0, 0)
  }

  predicate Holds(p: Payout, call: nat) {
    call in p.calls && (p.calls[call].Claimed? || p.calls[call].PaidReferee? || p.calls[call].MustRevert?)
  }

  function HolderStage(p: Payout): Option<Stage> {
    if p.claimedBy.Some? then At(p, p.claimedBy.value) else None
  }

  /** The row names the one call that has claimed it; every other call holds nothing. The
      referee has been paid once for each failed second credit and once by the call the row
      names, if that call got so far; the referrer only if that call is done. */
  ghost predicate Accounted(r: Referral, referee: int, referrer: int, p: Payout) {
    && (p.status.Pending? <==> p.claimedBy.None?)
    && (p.claimedBy.Some? ==> p.claimedBy.value in p.calls && HolderStage(p) != Some(HasRow))
    && (forall c: nat :: Holds(p, c) ==> p.claimedBy == Some(c))
    && p.toReferrer == (if HolderStage(p) == Some(Ended) then 1 else 0)
    && p.toReferee == p.failedSeconds
       + (if HolderStage(p) == Some(Ended) || HolderStage(p) == Some(PaidReferee) then 1 else 0)
    && p.refereeBalance == referee + r.refereeCoins * p.toReferee
    && p.referrerBalance == referrer + r.referrerCoins * p.toReferrer
  }

  lemma OneMore(coins: nat, n: nat)
    ensures coins * (n + 1) == coins * n + coins
  {
  }

  lemma StepAccounted(r: Referral, referee: int, referrer: int, p: Payout, e: Event)
    requires Accounted(r, referee, referrer, p)
    ensures Accounted(r, referee, referrer, Step(r, p, e))
  {
    var q := Step(r, p, e);
    assert forall c: nat :: c != e.call ==> Holds(q, c) == Holds(p, c);
    assert Holds(p, e.call) ==> p.claimedBy == Some(e.call);
    OneMore(r.refereeCoins, p.toReferee);
    OneMore(r.referrerCoins, p.toReferrer);
  }

  /** Over every interleaving of any number of ride completions: at most one call holds the
      claim; the referrer is paid at most once; the referee at most once more than the number
      of failed second credits; both sums are in the coins fixed when the code was applied. */
  lemma ReferralAccounted(r: Referral, referee: int, referrer: int, es: seq<Event>)
    ensures var p := Runs.Run((p, e) => Step(r, p, e), Init(referee, referrer), es);
      && p.toReferrer <= 1
      && p.failedSeconds <= p.toReferee <= p.failedSeconds + 1
      && p.refereeBalance == referee + r.refereeCoins * p.toReferee
      && p.referrerBalance == referrer + r.referrerCoins * p.toReferrer
      && (forall c: nat, k: nat :: Holds(p, c) && Holds(p, k) ==> c == k)
      && (p.toReferrer == 1 ==> p.toReferee == p.failedSeconds + 1)
      && (p.status.Rewarded? && (forall c: nat :: !Holds(p, c)) ==> p.toReferrer == 1)
  {
    forall p, e | Accounted(r, referee, referrer, p) ensures Accounted(r, referee, referrer, Step(r, p, e)) {
      StepAccounted(r, referee, referrer, p, e);
    }
    Runs.RunKeeps((p, e) => Step(r, p, e), p => Accounted(r, referee, referrer, p), Init(referee, referrer), es);
    var p := Runs.Run((p, e) => Step(r, p, e), Init(referee, referrer), es);
    if p.claimedBy.Some? {
      assert !Holds(p, p.claimedBy.value) ==> HolderStage(p) == Some(Ended);
    }
  }

  /** Once the referral is settled, each of the two has been paid exactly once if and only if
      no second credit ever failed. */
  lemma PaidExactlyOnce(r: Referral, referee: int, referrer: int, es: seq<Event>)
    ensures var p := Runs.Run((p, e) => Step(r, p, e), Init(referee, referrer), es);
      p.status.Rewarded? && (forall c: nat :: !Holds(p, c)) ==>
        (p.toReferee == 1 && p.toReferrer == 1 <==> p.failedSeconds == 0)
  {
    ReferralAccounted(r, referee, referrer, es);
  }

  function FailedRide(): seq<Event> {
    [Find(1), Claim(1, true), PayReferee(1, true), PayReferrer(1, false), Revert(1)]
  }

  function NextRide(): seq<Event> {
    [Find(2), Claim(2, true), PayReferee(2, true), PayReferrer(2, true)]
  }

  lemma FailedRidePaysReferee(r: Referral)
    ensures Runs.Run((p, e) => Step(r, p, e), Init(0, 0), FailedRide())
         == Payout(Pending, None, map[1 := Ended], r.refereeCoins, 0, 1, 0, 1)
  {
    var es := FailedRide();
    var p1 := Step(r, Init(0, 0), es[0]);
    var p2 := Step(r, p1, es[1]);
    var p3 := Step(r, p2, es[2]);
    var p4 := Step(r, p3, es[3]);
    Runs.RunTrace((p, e) => Step(r, p, e), es, [Init(0, 0), p1, p2, p3, p4, Step(r, p4, es[4])]);
  }

  /** With the program switched off no ride pays anything, however completions overlap. */
  lemma DisabledPaysNothing(r: Referral, referee: int, referrer: int, es: seq<Event>)
    requires forall i :: 0 <= i < |es| ==> !(es[i].Claim? && es[i].enabled)
    ensures var p := Runs.Run((p, e) => Step(r, p, e), Init(referee, referrer), es);
      p.refereeBalance == referee && p.referrerBalance == referrer && p.status.Pending?
  {
    var ok := (e: Event) => !(e.Claim? && e.enabled);
    var inv := (p: Payout) => p.refereeBalance == referee && p.referrerBalance == referrer && p.status.Pending?
      && forall c :: c in p.calls ==> p.calls[c].HasRow? || p.calls[c].Ended?;
    forall p, e | inv(p) && ok(e) ensures inv(Step(r, p, e)) {
    }
    Runs.RunOfKeeps((p, e) => Step(r, p, e), ok, inv, Init(referee, referrer), es);
  }

  /** One ride on its own, whatever fails in it: a pending referral is claimed if the program is
      on; the referee is paid if the first credit succeeds, the referrer if both do; and the
      referral stays claimed only then. */
  lemma RideAlone(r: Referral, p: Payout, call: nat, enabled: bool, first: bool, second: bool)
    requires call !in p.calls
    ensures var q := Runs.Run((p, e) => Step(r, p, e), p,
        [Find(call), Claim(call, enabled), PayReferee(call, first), PayReferrer(call, second), Revert(call)]);
      var claims := p.status.Pending? && enabled;
      && At(q, call) == Some(Ended)
      && (!p.status.Pending? ==> At(Step(r, p, Find(call)), call) == Some(Ended))
      && q.status == (if claims && first && second then Rewarded else p.status)
      && q.refereeBalance == p.refereeBalance + (if claims && first then r.refereeCoins else 0)
      && q.referrerBalance == p.referrerBalance + (if claims && first && second then r.referrerCoins else 0)
  {
    var es := [Find(call), Claim(call, enabled), PayReferee(call, first), PayReferrer(call, second), Revert(call)];
    var p1 := Step(r, p, es[0]);
    var p2 := Step(r, p1, es[1]);
    var p3 := Step(r, p2, es[2]);
    var p4 := Step(r, p3, es[3]);
    Runs.RunTrace((p, e) => Step(r, p, e), es, [p, p1, p2, p3, p4, Step(r, p4, es[4])]);
  }

  /** The second credit fails, the claim is put back, and the next ride pays the referee again. */
  lemma FailedSecondCreditPaysTwice(r: Referral)
    ensures var p := Runs.Run((p, e) => Step(r, p, e), Init(0, 0), FailedRide() + NextRide());
      p.refereeBalance == 2 * r.refereeCoins && p.referrerBalance == r.referrerCoins
  {
    FailedRidePaysReferee(r);
    var p := Runs.Run((p, e) => Step(r, p, e), Init(0, 0), FailedRide());
    var es := NextRide();
    var p1 := Step(r, p, es[0]);
    var p2 := Step(r, p1, es[1]);
    var p3 := Step(r, p2, es[2]);
    Runs.RunTrace((p, e) => Step(r, p, e), es, [p, p1, p2, p3, Step(r, p3, es[3])]);
    hide FailedRide;
    Runs.RunJoins((p, e) => Step(r, p, e), Init(0, 0), FailedRide(), NextRide());
  }

  // ---------------------------------------------------------------------------------------
  // Applying a code
  // ---------------------------------------------------------------------------------------

  datatype Application = Application(
    referee: nat,
    code: string,            // trimmed, upper case
    device: Option<nat>,
    completedRides: nat,
    referrer: Option<nat>)   // the user with that code

  datatype Settings = Settings(enabled: bool, refereeCoins: nat, referrerCoins: nat)

  datatype Reply =
    | Applied
    | Disabled
    | NoCode
    | AlreadyUsed
    | NotNew
    | InvalidCode
    | OwnCode
    | DeviceUsed
    | SharedDevice

  predicate HasReferee(rows: seq<Referral>, referee: nat) {
    exists i :: 0 <= i < |rows| && rows[i].referee == referee
  }

  predicate HasDevice(rows: seq<Referral>, device: nat) {
    exists i :: 0 <= i < |rows| && rows[i].device == Some(device)
  }

  predicate HasReferrerOnDevice(rows: seq<Referral>, referrer: nat, device: nat) {
    exists i :: 0 <= i < |rows| && rows[i].device == Some(device) && rows[i].referrer == referrer
  }

  function Verdict(rows: seq<Referral>, a: Application, s: Settings): Reply {
    if !s.enabled then Disabled
    else if a.code == "" then NoCode
    else if HasReferee(rows, a.referee) then AlreadyUsed
    else if a.completedRides > 0 then NotNew
    else if a.referrer.None? then InvalidCode
    else if a.referrer.value == a.referee then OwnCode
    else if a.device.Some? && HasDevice(rows, a.device.value) then DeviceUsed
    else if a.device.Some? && HasReferrerOnDevice(rows, a.referrer.value, a.device.value) then SharedDevice
    else Applied
  }

  /** The amounts are those of the settings at this moment. */
  function AfterApply(rows: seq<Referral>, a: Application, s: Settings): seq<Referral> {
    if Verdict(rows, a, s).Applied?
    then rows + [Referral(a.referrer.value, a.referee, a.device, s.refereeCoins, s.referrerCoins)]
    else rows
  }

  ghost predicate RefereesApart(rows: seq<Referral>) {
    forall i, j :: 0 <= i < j < |rows| ==> rows[i].referee != rows[j].referee
  }

  ghost predicate DevicesApart(rows: seq<Referral>) {
    forall i, j :: 0 <= i < j < |rows| && rows[i].device.Some? ==> rows[i].device != rows[j].device
  }

  ghost predicate NobodyThemselves(rows: seq<Referral>) {
    forall i :: 0 <= i < |rows| ==> rows[i].referrer != rows[i].referee
  }

  /** One referral for a referee, one for a device, nobody refers themselves. */
  ghost predicate FairBook(rows: seq<Referral>) {
    RefereesApart(rows) && DevicesApart(rows) && NobodyThemselves(rows)
  }

  lemma ApplyFair(rows: seq<Referral>, a: Application, s: Settings)
    requires FairBook(rows)
    ensures FairBook(AfterApply(rows, a, s))
  {
  }

  /** Over any run of whole applications under any settings. And the check that referrer and
      referee share no device never refuses anybody, whatever the rows: the device check before
      it already has. */
  lemma BookAlwaysFair(es: seq<(Application, Settings)>, a: Application, s: Settings)
    ensures var rows := Runs.Run((rows, e: (Application, Settings)) => AfterApply(rows, e.0, e.1), [], es);
      FairBook(rows)
    ensures forall rows: seq<Referral> :: !Verdict(rows, a, s).SharedDevice?
  {
    forall rows, e: (Application, Settings) | FairBook(rows) ensures FairBook(AfterApply(rows, e.0, e.1)) {
      ApplyFair(rows, e.0, e.1);
    }
    Runs.RunKeeps((rows, e: (Application, Settings)) => AfterApply(rows, e.0, e.1), rows => FairBook(rows), [], es);
  }

  // ---------------------------------------------------------------------------------------
  // Applications at the same time
  // ---------------------------------------------------------------------------------------

  /** `passed` are the applications between their checks and their insert; `late` counts the
      inserts on a device that some row had by then. */
  datatype Book = Book(rows: seq<Referral>, passed: map<nat, Referral>, late: nat)

  datatype BookEvent =
    | Checks(call: nat, a: Application, s: Settings)
    | Inserts(call: nat)

  predicate DeviceTaken(rows: seq<Referral>, row: Referral) {
    row.device.Some? && HasDevice(rows, row.device.value)
  }

  /** The referee's column is unique, so a second insert for one referee fails; the device's
      is not. */
  function BookStep(b: Book, e: BookEvent): Book {
    match e
    case Checks(call, a, s) =>
      if call in b.passed || !Verdict(b.rows, a, s).Applied? then b
      else
        var row := Referral(a.referrer.value, a.referee, a.device, s.refereeCoins, s.referrerCoins);
        b.(passed := b.passed[call := row])
    case Inserts(call) =>
      if call !in b.passed then b
      else
        var row := b.passed[call];
        var c := b.(passed := b.passed - {call});
        if HasReferee(b.rows, row.referee) then c
        else c.(rows := b.rows + [row], late := if DeviceTaken(b.rows, row) then b.late + 1 else b.late)
  }

  ghost predicate BookHolds(b: Book) {
    && RefereesApart(b.rows) && NobodyThemselves(b.rows)
    && (forall c :: c in b.passed ==> b.passed[c].referrer != b.passed[c].referee)
    && (DevicesApart(b.rows) <==> b.late == 0)
  }

  lemma DevicesAppend(rows: seq<Referral>, row: Referral)
    ensures DevicesApart(rows + [row]) <==> DevicesApart(rows) && !DeviceTaken(rows, row)
  {
    var all := rows + [row];
    assert forall i :: 0 <= i < |rows| ==> all[i] == rows[i];
    assert all[|rows|] == row;
  }

  lemma BookStepHolds(b: Book, e: BookEvent)
    requires BookHolds(b)
    ensures BookHolds(BookStep(b, e))
  {
    if e.Inserts? && e.call in b.passed {
      DevicesAppend(b.rows, b.passed[e.call]);
    }
  }

  /** However applications overlap, nobody is referred twice and nobody refers themselves; no
      device is used twice if and only if no insert finds its device taken. */
  lemma DevicesApartExactly(es: seq<BookEvent>)
    ensures var b := Runs.Run(BookStep, Book([], map[], 0), es);
      && RefereesApart(b.rows) && NobodyThemselves(b.rows)
      && (DevicesApart(b.rows) <==> b.late == 0)
  {
    forall b, e | BookHolds(b) ensures BookHolds(BookStep(b, e)) {
      BookStepHolds(b, e);
    }
    Runs.RunKeeps(BookStep, b => BookHolds(b), Book([], map[], 0), es);
  }

  /** Two new users on one device, both checked before either is inserted. */
  lemma OverlappingApplicationsShareDevice()
    ensures var a := Application(2, "CODE", Some(9), 0, Some(1));
      var s := Settings(true, 10, 20);
      var b := Runs.Run(BookStep, Book([], map[], 0),
                        [Checks(1, a, s), Checks(2, a.(referee := 3), s), Inserts(1), Inserts(2)]);
      !DevicesApart(b.rows) && b.rows == [Referral(1, 2, Some(9), 10, 20), Referral(1, 3, Some(9), 10, 20)]
  {
    var a := Application(2, "CODE", Some(9), 0, Some(1));
    var s := Settings(true, 10, 20);
    var es := [Checks(1, a, s), Checks(2, a.(referee := 3), s), Inserts(1), Inserts(2)];
    var b0 := Book([], map[], 0);
    var b1 := BookStep(b0, es[0]);
    var b2 := BookStep(b1, es[1]);
    var b3 := BookStep(b2, es[2]);
    var b4 := BookStep(b3, es[3]);
    assert b4.rows == [Referral(1, 2, Some(9), 10, 20), Referral(1, 3, Some(9), 10, 20)];
    assert b4.rows[0].device == b4.rows[1].device;
    Runs.RunTrace(BookStep, es, [b0, b1, b2, b3, b4]);
  }

  /** A code is applied exactly when the program is on, the code is known and somebody else's,
      and the new user has neither used one nor completed a ride, on a device that has not. */
  lemma AppliedExactly(rows: seq<Referral>, a: Application, s: Settings)
    ensures Verdict(rows, a, s).Applied? <==>
      && s.enabled && a.code != "" && a.completedRides == 0
      && a.referrer.Some? && a.referrer.value != a.referee
      && (forall i :: 0 <= i < |rows| ==> rows[i].referee != a.referee)
      && (a.device.Some? ==> forall i :: 0 <= i < |rows| ==> rows[i].device != a.device)
    ensures Verdict(rows, a, s).Disabled? <==> !s.enabled
    ensures !Verdict(rows, a, s).Applied? ==> AfterApply(rows, a, s) == rows
  {
  }

  /** A new referral with nothing in between its checks and its insert is what the routine
      makes of it, refusals included. */
  lemma ApplicationAlone(b: Book, call: nat, a: Application, s: Settings)
    requires call !in b.passed
    ensures Runs.Run(BookStep, b, [Checks(call, a, s), Inserts(call)]).rows == AfterApply(b.rows, a, s)
  {
    var es := [Checks(call, a, s), Inserts(call)];
    var b1 := BookStep(b, es[0]);
    Runs.RunTrace(BookStep, es, [b, b1, BookStep(b1, es[1])]);
  }

  /** What an application promises is what one later ride pays: the new user gets the referee's
      coins and the owner of the code the referrer's, as the settings were at apply time. */
  lemma PromiseKept(rows: seq<Referral>, a: Application, s: Settings, referee: int, referrer: int, call: nat)
    requires Verdict(rows, a, s).Applied?
    ensures var after := AfterApply(rows, a, s);
      |after| == |rows| + 1 && after[..|rows|] == rows && var r := after[|rows|];
      && r.referee == a.referee && Some(r.referrer) == a.referrer && r.device == a.device
      && var p := Runs.Run((p, e) => Step(r, p, e), Init(referee, referrer),
                           [Find(call), Claim(call, true), PayReferee(call, true), PayReferrer(call, true)]);
         && p.refereeBalance == referee + s.refereeCoins
         && p.referrerBalance == referrer + s.referrerCoins
         && p.status == Rewarded && p.claimedBy == Some(call)
  {
    var r := AfterApply(rows, a, s)[|rows|];
    var es := [Find(call), Claim(call, true), PayReferee(call, true), PayReferrer(call, true)];
    var p0 := Init(referee, referrer);
    var p1 := Step(r, p0, es[0]);
    var p2 := Step(r, p1, es[1]);
    var p3 := Step(r, p2, es[2]);
    Runs.RunTrace((p, e) => Step(r, p, e), es, [p0, p1, p2, p3, Step(r, p3, es[3])]);
  }

  class ReferralBook {
    var rows: seq<Referral>

    method ApplyCode(a: Application, s: Settings) returns (reply: Reply)
      modifies this
      ensures reply == Verdict(old(rows), a, s)
      ensures rows == AfterApply(old(rows), a, s)
    {
      if !s.enabled {
        return Disabled;
      }
      if a.code == "" {
        return NoCode;
      }
      if HasReferee(rows, a.referee) {
        return AlreadyUsed;
      }
      if a.completedRides > 0 {
        return NotNew;
      }
      if a.referrer.None? {
        return InvalidCode;
      }
      if a.referrer.value == a.referee {
        return OwnCode;
      }
      if a.device.Some? {
        if HasDevice(rows, a.device.value) {
          return DeviceUsed;
        }
        if HasReferrerOnDevice(rows, a.referrer.value, a.device.value) {
          return SharedDevice;
        }
      }
      rows := rows + [Referral(a.referrer.value, a.referee, a.device, s.refereeCoins, s.referrerCoins)];
      return Applied;
    }
  }

  /** One referral row with the two users' coins, and the payout of one completed ride. */
  class ReferralRow {
    const row: Referral
    var status: Status
    var refereeBalance: int
    var referrerBalance: int

    method OnFirstCompletedRide(enabled: bool, firstOk: bool, secondOk: bool)
      modifies this
      ensures var claimed := old(status).Pending? && enabled;
        && status == (if claimed && firstOk && secondOk then Rewarded else old(status))
        && refereeBalance == old(refereeBalance) + (if claimed && firstOk then row.refereeCoins else 0)
        && referrerBalance == old(referrerBalance) + (if claimed && firstOk && secondOk then row.referrerCoins else 0)
    {
      if !status.Pending? || !enabled {
        return;
      }
      status := Rewarded;
      if !firstOk {
        status := Pending;
        return;
      }
      refereeBalance := refereeBalance + row.refereeCoins;
      if !secondOk {
        status := Pending;
        return;
      }
      referrerBalance := referrerBalance + row.referrerCoins;
    }
  }
}
