/** Handing one booking over to another driver: any number of request, accept, cancel and
    expiry calls, interleaved at every Redis command and database write. */
module Handoff {
  import opened Options
  import Runs

  datatype Status = Accepted | DriverAssigned | Ongoing | Completed | Cancelled

  datatype Booking = Booking(driver: nat, original: Option<nat>, handoffs: nat, status: Status)

  /** What a call has done so far. A request checks the booking, looks for the handoff key and
      then stores it; an accept reads the key, takes the lock, re-reads the booking, checks,
      saves, deletes the key and at last releases the lock; a cancel checks the booking, looks
      for the key and deletes it; an expiry looks for it and deletes it. */
  datatype Stage =
    | Asking
    | Requesting
    | Cancelling
    | HasHandoff
    | Locked
    | HasBooking(booking: Booking)
    | Checked(booking: Booking)
    | Saved
    | Deleted
    | Deleting
    | Ended

  datatype Call = Call(driver: nat, stage: Stage)

  /** `handoff` holds the driver who asked; `others` are the rows read by calls that start,
      complete or cancel the trip and have yet to save them. `changes` counts transfers;
      `undone` counts the saves by others that wrote back a row read before one. */
  datatype World = World(
    booking: Booking,
    handoff: Option<nat>,
    lock: Option<nat>,
    calls: map<nat, Call>,
    others: map<nat, Booking>,
    changes: nat,
    undone: nat)

  datatype Event =
    | RequestReads(call: nat, driver: nat)
    | RequestLooks(call: nat)
    | RequestStores(call: nat)
    | AcceptReads(call: nat, driver: nat)
    | TakeLock(call: nat)
    | ReadBooking(call: nat)
    | Check(call: nat, ok: bool) // approved, vehicle matches, no active booking
    | Save(call: nat)
    | DeleteHandoff(call: nat)
    | Release(call: nat)
    | CancelReads(call: nat, driver: nat)
    | CancelLooks(call: nat)
    | ExpiryLooks(call: nat)
    | Deletes(call: nat)
    | HandoffLapses
    | OtherReads(other: nat)
    | OtherSaves(other: nat, status: Status)
    | StatusChanges(status: Status) // read and save with nothing in between

  function StageOf(w: World, call: nat): Stage {
    if call in w.calls then w.calls[call].stage else Ended
  }

  function Goes(w: World, call: nat, stage: Stage): World
    requires call in w.calls
  {
    w.(calls := w.calls[call := w.calls[call].(stage := stage)])
  }

  function Begins(w: World, call: nat, driver: nat, stage: Stage): World {
    w.(calls := w.calls[call := Call(driver, stage)])
  }

  predicate Active(status: Status) {
    status.Accepted? || status.DriverAssigned? || status.Ongoing?
  }

  predicate Transferable(b: Booking) {
    Active(b.status) && b.handoffs < 1
  }

  /** The transfer writes back the row it read, with the assigned columns changed. */
  function AfterSave(w: World, call: nat): World
    requires StageOf(w, call).Checked?
  {
    var b := w.calls[call].stage.booking;
    Goes(w, call, Saved).(
      booking := Booking(w.calls[call].driver, Some(b.driver), 1, b.status),
      changes := w.changes + 1)
  }

  /** So do the others, with the status changed. */
  function AfterOther(w: World, other: nat, status: Status): World
    requires other in w.others
  {
    var row := w.others[other];
    w.(booking := row.(status := status), others := w.others - {other},
       undone := if SameDriver(row, w.booking) then w.undone else w.undone + 1)
  }

  /** The columns a transfer assigns. */
  predicate SameDriver(a: Booking, b: Booking) {
    a.driver == b.driver && a.original == b.original && a.handoffs == b.handoffs
  }

  function Step(w: World, e: Event): World {
    match e
    case RequestReads(call, driver) =>
      if call in w.calls then w
      else Begins(w, call, driver, if w.booking.driver == driver && Transferable(w.booking) then Asking else Ended)
    case RequestLooks(call) =>
      if StageOf(w, call) != Asking then w else Goes(w, call, if w.handoff.None? then Requesting else Ended)
    case RequestStores(call) =>
      if StageOf(w, call) != Requesting then w
      else Goes(w, call, Ended).(handoff := Some(w.calls[call].driver))
    case AcceptReads(call, driver) =>
      if call in w.calls then w
      else Begins(w, call, driver, if w.handoff.Some? && w.handoff.value != driver then HasHandoff else Ended)
    case TakeLock(call) =>
      if StageOf(w, call) != HasHandoff then w
      else if w.lock.Some? then Goes(w, call, Ended)
      else Goes(w, call, Locked).(lock := Some(call))
    case ReadBooking(call) =>
      if StageOf(w, call) != Locked then w
      else Goes(w, call, if Transferable(w.booking) then HasBooking(w.booking) else Deleted)
    case Check(call, ok) =>
      if !StageOf(w, call).HasBooking? then w
      else Goes(w, call, if ok then Checked(StageOf(w, call).booking) else Deleted)
    case Save(call) =>
      if StageOf(w, call).Checked? then AfterSave(w, call) else w
    case DeleteHandoff(call) =>
      if StageOf(w, call) != Saved then w else Goes(w, call, Deleted).(handoff := None)
    case Release(call) =>
      if StageOf(w, call) != Deleted then w else Goes(w, call, Ended).(lock := None)
    case CancelReads(call, driver) =>
      if call in w.calls then w
      else Begins(w, call, driver, if w.booking.driver == driver then Cancelling else Ended)
    case CancelLooks(call) =>
      if StageOf(w, call) != Cancelling then w else Goes(w, call, if w.handoff.Some? then Deleting else Ended)
    case ExpiryLooks(call) =>
      if call in w.calls then w
      else Begins(w, call, 0, if w.handoff.Some? then Deleting else Ended)
    case Deletes(call) =>
      if StageOf(w, call) != Deleting then w else Goes(w, call, Ended).(handoff := None)
    case HandoffLapses => w.(handoff := None)
    case OtherReads(other) =>
      if other in w.others then w else w.(others := w.others[other := w.booking])
    case OtherSaves(other, status) =>
      if other in w.others then AfterOther(w, other, status) else w
    case StatusChanges(status) => w.(booking := w.booking.(status := status))
  }

  function Init(driver: nat, status: Status): World {
    World(Booking(driver, None, 0, status), None, None, map[], map[], 0, 0)
  }

  // ---------------------------------------------------------------------------------------
  // At most one change of driver
  // ---------------------------------------------------------------------------------------

  predicate Critical(stage: Stage) {
    stage.Locked? || stage.HasBooking? || stage.Checked? || stage.Saved? || stage.Deleted?
  }

  /** What a call may carry: only the first driver ever asks for a handoff, only others accept
      one, and a booking read under the lock is still as it was read. */
  predicate CallFits(first: nat, w: World, c: Call) {
    match c.stage
    case Asking => c.driver == first
    case Requesting => c.driver == first
    case HasHandoff => c.driver != first
    case Locked => c.driver != first
    case HasBooking(b) => c.driver != first && w.changes == 0 && b.driver == first
    case Checked(b) => c.driver != first && w.changes == 0 && b.driver == first
    case _ => true
  }

  /** Only the call that holds the lock is between taking and releasing it. */
  ghost predicate Exclusive(w: World) {
    forall call: nat :: Critical(StageOf(w, call)) ==> w.lock == Some(call)
  }

  /** What was read is the row as it was before any transfer, or as it is now. */
  predicate OtherFits(first: nat, w: World, row: Booking) {
    SameDriver(row, Booking(first, None, 0, row.status)) || SameDriver(row, w.booking)
  }

  ghost predicate OthersFit(first: nat, w: World) {
    forall o :: o in w.others ==> OtherFits(first, w, w.others[o])
  }

  ghost predicate Fits(first: nat, w: World) {
    && Exclusive(w)
    && OthersFit(first, w)
    && (forall call :: call in w.calls ==> CallFits(first, w, w.calls[call]))
    && (w.handoff.Some? ==> w.handoff.value == first)
    && BookingFits(first, w.booking, w.changes)
  }

  /** Untouched, or handed over once to somebody else. */
  predicate BookingFits(first: nat, b: Booking, changes: nat) {
    && changes <= 1 && b.handoffs == changes
    && (changes == 0 ==> b.driver == first && b.original.None?)
    && (changes == 1 ==> b.original == Some(first) && b.driver != first)
  }

  predicate ByCall(e: Event) {
    !e.HandoffLapses? && !e.StatusChanges? && !e.OtherReads? && !e.OtherSaves?
  }

  lemma StepExclusive(w: World, e: Event)
    requires Exclusive(w)
    ensures Exclusive(Step(w, e))
  {
  }

  /** The booking and the key stay right, and the call that moves keeps what it carries right. */
  lemma BookingKept(first: nat, w: World, e: Event)
    requires Fits(first, w) && Step(w, e).undone == w.undone
    ensures var v := Step(w, e);
      BookingFits(first, v.booking, v.changes) && (v.handoff.Some? ==> v.handoff.value == first)
  {
    hide Exclusive, OthersFit;
    if ByCall(e) && e.call in w.calls {
      CallOf(first, w, e.call);
    }
  }

  lemma MoverFits(first: nat, w: World, e: Event)
    requires Fits(first, w) && ByCall(e) && e.call in Step(w, e).calls
    ensures CallFits(first, Step(w, e), Step(w, e).calls[e.call])
  {
    hide Exclusive, OthersFit;
    if e.call in w.calls {
      CallOf(first, w, e.call);
    }
  }

  lemma CallOf(first: nat, w: World, call: nat)
    requires Fits(first, w) && call in w.calls
    ensures CallFits(first, w, w.calls[call])
  {
  }

  /** The others are not disturbed: whoever relies on the booking holds the lock. */
  lemma OtherCallFits(first: nat, w: World, e: Event, call: nat)
    requires Fits(first, w) && call in w.calls && (ByCall(e) ==> call != e.call)
    requires Step(w, e).undone == w.undone
    ensures call in Step(w, e).calls && Step(w, e).calls[call] == w.calls[call]
    ensures CallFits(first, Step(w, e), w.calls[call])
  {
    assert CallFits(first, w, w.calls[call]);
    assert Critical(StageOf(w, call)) ==> w.lock == Some(call);
    if e.Save? {
      assert Critical(StageOf(w, e.call)) ==> w.lock == Some(e.call);
    }
  }

  lemma RowsFit(first: nat, w: World, e: Event)
    requires Fits(first, w) && Step(w, e).undone == w.undone
    ensures OthersFit(first, Step(w, e))
  {
    var v := Step(w, e);
    forall o | o in v.others ensures OtherFits(first, v, v.others[o]) {
      assert o in w.others ==> OtherFits(first, w, w.others[o]);
      if e.Save? && e.call in w.calls {
        assert CallFits(first, w, w.calls[e.call]);
      }
    }
  }

  lemma StepFits(first: nat, w: World, e: Event)
    requires Fits(first, w) && Step(w, e).undone == w.undone
    ensures Fits(first, Step(w, e))
  {
    var v := Step(w, e);
    StepExclusive(w, e);
    RowsFit(first, w, e);
    BookingKept(first, w, e);
    forall call | call in v.calls ensures CallFits(first, v, v.calls[call]) {
      if !ByCall(e) || call != e.call {
        KeepsCalls(w, e, call);
        OtherCallFits(first, w, e, call);
      } else {
        MoverFits(first, w, e);
      }
    }
    hide OthersFit, Exclusive, Step, CallFits;
  }

  lemma KeepsCalls(w: World, e: Event, call: nat)
    requires ByCall(e) ==> call != e.call
    ensures call in Step(w, e).calls <==> call in w.calls
  {
  }

  ghost predicate Safe(first: nat, w: World) {
    w.undone == 0 ==> Fits(first, w)
  }

  lemma RunSafe(driver: nat, status: Status, es: seq<Event>)
    ensures Safe(driver, Runs.Run(Step, Init(driver, status), es))
  {
    forall w, e | Safe(driver, w) ensures Safe(driver, Step(w, e)) {
      UndoneStays(w, e);
      if Step(w, e).undone == 0 {
        StepFits(driver, w, e);
      }
    }
    Runs.RunKeeps(Step, w => Safe(driver, w), Init(driver, status), es);
  }

  lemma UndoneStays(w: World, e: Event)
    ensures w.undone <= Step(w, e).undone
  {
  }

  /** Over every interleaving the booking changes driver at most once; its handoff count is
      one exactly when the original driver is recorded; and then the two drivers differ. All
      this as long as no start, completion or cancellation writes back a row it read before
      the transfer. */
  lemma DriverChangesOnce(driver: nat, status: Status, es: seq<Event>)
    ensures var w := Runs.Run(Step, Init(driver, status), es);
      w.undone == 0 ==>
        && w.changes <= 1
        && w.booking.handoffs == w.changes
        && (w.booking.handoffs == 1 <==> w.booking.original.Some?)
        && (w.booking.original.Some? ==> w.booking.original.value == driver && w.booking.driver != driver)
        && (w.booking.original.None? ==> w.booking.driver == driver)
  {
    RunSafe(driver, status, es);
  }

  /** Where that ends: after such a run, the next event takes the booking back from the new
      driver, every trace of the transfer included, if and only if it saves a row read before
      the transfer. */
  lemma UndoneExactly(driver: nat, status: Status, es: seq<Event>, e: Event)
    ensures var w := Runs.Run(Step, Init(driver, status), es);
      w.undone == 0 && w.changes == 1 ==>
        && (Step(w, e).booking.driver != w.booking.driver <==>
              e.OtherSaves? && e.other in w.others && w.others[e.other].original.None?)
        && (Step(w, e).booking.driver != w.booking.driver ==>
              SameDriver(Step(w, e).booking, Init(driver, status).booking))
  {
    var w := Runs.Run(Step, Init(driver, status), es);
    RunSafe(driver, status, es);
    if w.undone == 0 && w.changes == 1 {
      if e.OtherSaves? && e.other in w.others {
        assert OtherFits(driver, w, w.others[e.other]);
      }
      if e.Save? && e.call in w.calls {
        assert CallFits(driver, w, w.calls[e.call]);
      }
    }
  }

  /** Once the booking has changed hands, no later call of any kind touches its driver, under
      the same condition. */
  lemma HandoffIsFinal(driver: nat, status: Status, es: seq<Event>, later: seq<Event>)
    ensures var w := Runs.Run(Step, Init(driver, status), es);
      var v := Runs.Run(Step, w, later);
      w.changes == 1 && v.undone == 0 ==> v.booking.driver == w.booking.driver
  {
    var w := Runs.Run(Step, Init(driver, status), es);
    RunSafe(driver, status, es);
    var inv := (v: World) => w.undone <= v.undone &&
      (w.changes == 1 && v.undone == 0 ==> Fits(driver, v) && v.changes == 1 && v.booking.driver == w.booking.driver);
    forall v, e | inv(v) ensures inv(Step(v, e)) {
      UndoneStays(v, e);
      if w.changes == 1 && Step(v, e).undone == 0 {
        StepFits(driver, v, e);
        SettledStays(driver, v, e);
      }
    }
    Runs.RunKeeps(Step, inv, w, later);
  }

  lemma SettledStays(first: nat, w: World, e: Event)
    requires Fits(first, w) && w.changes == 1 && Step(w, e).undone == w.undone
    ensures Step(w, e).changes == 1 && Step(w, e).booking.driver == w.booking.driver
  {
    if e.Save? && e.call in w.calls {
      assert CallFits(first, w, w.calls[e.call]);
    }
  }

  // ---------------------------------------------------------------------------------------
  // The status written back
  // ---------------------------------------------------------------------------------------

  /** Whatever a call read under the lock was active. */
  predicate ReadActive(stage: Stage) {
    stage.HasBooking? || stage.Checked? ==> Active(stage.booking.status)
  }

  ghost predicate AllReadActive(w: World) {
    forall call: nat :: ReadActive(StageOf(w, call))
  }

  lemma StepReadActive(w: World, e: Event)
    requires AllReadActive(w)
    ensures AllReadActive(Step(w, e))
  {
    if ByCall(e) {
      assert forall call: nat :: call != e.call ==> StageOf(Step(w, e), call) == StageOf(w, call);
      assert ReadActive(StageOf(w, e.call));
    } else {
      assert forall call: nat :: StageOf(Step(w, e), call) == StageOf(w, call);
    }
  }

  /** After any run whatever: the trip is under way after the next event if and only if the
      event is the save of a checked accept, or another's write that says so, or leaves the
      row alone with the trip under way; and the save of a checked accept leaves the status
      alone if and only if it is still the one that was read. */
  lemma ReopensExactly(driver: nat, status: Status, es: seq<Event>, e: Event)
    ensures var w := Runs.Run(Step, Init(driver, status), es);
      Active(Step(w, e).booking.status) <==>
        if e.Save? && StageOf(w, e.call).Checked? then true
        else if (e.OtherSaves? && e.other in w.others) || e.StatusChanges? then Active(e.status)
        else Active(w.booking.status)
    ensures var w := Runs.Run(Step, Init(driver, status), es);
      e.Save? && StageOf(w, e.call).Checked? ==>
        (Step(w, e).booking.status == w.booking.status <==> StageOf(w, e.call).booking.status == w.booking.status)
  {
    forall w, e | AllReadActive(w) ensures AllReadActive(Step(w, e)) {
      StepReadActive(w, e);
    }
    Runs.RunKeeps(Step, w => AllReadActive(w), Init(driver, status), es);
    var w := Runs.Run(Step, Init(driver, status), es);
    if e.Save? {
      assert ReadActive(StageOf(w, e.call));
    }
  }

  function Requested(): seq<Event> {
    [RequestReads(10, 1), RequestLooks(10), RequestStores(10)]
  }

  function ReadUnderLock(): seq<Event> {
    [AcceptReads(20, 2), TakeLock(20), ReadBooking(20)]
  }

  function Saving(): seq<Event> {
    [Check(20, true), Save(20)]
  }

  /** The first driver asks for a handoff. */
  lemma Requests(w: World)
    requires w.booking.driver == 1 && Transferable(w.booking) && w.handoff.None? && w.calls == map[]
    ensures Runs.Run(Step, w, Requested()) == w.(handoff := Some(1), calls := map[10 := Call(1, Ended)])
  {
    var es := Requested();
    var w1 := Step(w, es[0]);
    var w2 := Step(w1, es[1]);
    Runs.RunTrace(Step, es, [w, w1, w2, Step(w2, es[2])]);
  }

  /** The second driver's accept takes the lock and reads the booking. */
  lemma ReadsUnderLock(w: World)
    requires Transferable(w.booking) && w.handoff == Some(1) && w.lock.None? && 20 !in w.calls
    ensures Runs.Run(Step, w, ReadUnderLock())
         == w.(lock := Some(20), calls := w.calls[20 := Call(2, HasBooking(w.booking))])
  {
    var es := ReadUnderLock();
    var w1 := Step(w, es[0]);
    var w2 := Step(w1, es[1]);
    Runs.RunTrace(Step, es, [w, w1, w2, Step(w2, es[2])]);
  }

  /** It passes the checks and is saved. */
  lemma Saves(w: World, b: Booking)
    requires StageOf(w, 20) == HasBooking(b) && w.calls[20].driver == 2
    ensures Runs.Run(Step, w, Saving())
         == w.(booking := Booking(2, Some(b.driver), 1, b.status), calls := w.calls[20 := Call(2, Saved)],
               changes := w.changes + 1)
  {
    var es := Saving();
    var w1 := Step(w, es[0]);
    Runs.RunTrace(Step, es, [w, w1, Step(w1, es[1])]);
  }

  lemma OneStep(w: World, e: Event)
    ensures Runs.Run(Step, w, [e]) == Step(w, e)
  {
    Runs.RunTrace(Step, [e], [w, Step(w, e)]);
  }

  lemma StatusOnly(w: World, status: Status)
    ensures Runs.Run(Step, w, [StatusChanges(status)]) == w.(booking := w.booking.(status := status))
  {
    OneStep(w, StatusChanges(status));
  }

  /** A trip completed between an accept's read and its save is under way again afterwards:
      the lock keeps out other accepts, not other writers of the row. */
  lemma StaleSaveReopensTrip()
    ensures var w := Runs.Run(Step, Init(1, Ongoing),
        Requested() + (ReadUnderLock() + ([StatusChanges(Completed)] + Saving())));
      w.booking == Booking(2, Some(1), 1, Ongoing)
  {
    var w0 := Init(1, Ongoing);
    var completed := [StatusChanges(Completed)];
    hide Requested, ReadUnderLock, Saving, Step;
    Requests(w0);
    var w1 := Runs.Run(Step, w0, Requested());
    ReadsUnderLock(w1);
    var w2 := Runs.Run(Step, w1, ReadUnderLock());
    StatusOnly(w2, Completed);
    var w3 := Runs.Run(Step, w2, completed);
    Saves(w3, w0.booking);
    Runs.RunJoins(Step, w2, completed, Saving());
    Runs.RunJoins(Step, w1, ReadUnderLock(), completed + Saving());
    Runs.RunJoins(Step, w0, Requested(), ReadUnderLock() + (completed + Saving()));
  }

  function HandedOver(): seq<Event> {
    Requested() + (ReadUnderLock() + Saving())
  }

  lemma HandsOver(w: World)
    requires w.booking.driver == 1 && Transferable(w.booking)
    requires w.handoff.None? && w.lock.None? && w.calls == map[]
    ensures var v := Runs.Run(Step, w, HandedOver());
      && v.booking == Booking(2, Some(1), 1, w.booking.status) && v.others == w.others
      && v.changes == w.changes + 1 && v.undone == w.undone
  {
    Requests(w);
    var w1 := Runs.Run(Step, w, Requested());
    hide Requested, ReadUnderLock, Saving, Step;
    ReadsUnderLock(w1);
    var w2 := Runs.Run(Step, w1, ReadUnderLock());
    Saves(w2, w.booking);
    Runs.RunJoins(Step, w1, ReadUnderLock(), Saving());
    Runs.RunJoins(Step, w, Requested(), ReadUnderLock() + Saving());
  }

  /** A start reads the booking, the booking is handed over, and the start is saved: the first
      driver has it back, and nothing on it tells of the second. */
  lemma StaleStartUndoesHandoff()
    ensures var w := Runs.Run(Step, Init(1, Accepted), [OtherReads(5)] + (HandedOver() + [OtherSaves(5, Ongoing)]));
      w.booking == Booking(1, None, 0, Ongoing) && w.changes == 1 && w.undone == 1
  {
    var w0 := Init(1, Accepted);
    var read, save := [OtherReads(5)], [OtherSaves(5, Ongoing)];
    hide HandedOver;
    OneStep(w0, read[0]);
    var w1 := Step(w0, read[0]);
    HandsOver(w1);
    var w2 := Runs.Run(Step, w1, HandedOver());
    OneStep(w2, save[0]);
    Runs.RunJoins(Step, w1, HandedOver(), save);
    Runs.RunJoins(Step, w0, read, HandedOver() + save);
  }

  // ---------------------------------------------------------------------------------------
  // The service, call by call
  // ---------------------------------------------------------------------------------------

  datatype Reply = Done | NotFound | Forbidden | Refused

  class HandoffDesk {
    var driver: nat
    var original: Option<nat>
    var handoffs: nat
    var status: Status
    var handoff: Option<nat>
    var lock: Option<nat>

    ghost function State(): Booking
      reads this
    {
      Booking(driver, original, handoffs, status)
    }

    method RequestHandoff(caller: nat) returns (reply: Reply)
      modifies this`handoff
      ensures reply.Done? <==> driver == caller && Transferable(State()) && old(handoff).None?
      ensures reply.Forbidden? <==> driver != caller
      ensures handoff == if reply.Done? then Some(caller) else old(handoff)
    {
      if driver != caller {
        return Forbidden;
      }
      if !Active(status) || handoffs >= 1 || handoff.Some? {
        return Refused;
      }
      handoff := Some(caller);
      return Done;
    }

    /** The whole accept; `allowed` is the answer of the checks on the new driver. */
    method AcceptHandoff(caller: nat, allowed: bool) returns (reply: Reply)
      modifies this
      ensures reply == (if old(handoff).None? then NotFound
                        else if old(handoff).value == caller then Forbidden
                        else if old(lock).Some? || !Transferable(old(State())) || !allowed then Refused
                        else Done)
      ensures lock == old(lock)
      ensures reply.Done? ==>
        handoff.None? && State() == Booking(caller, Some(old(driver)), 1, old(status))
      ensures !reply.Done? ==> handoff == old(handoff) && State() == old(State())
    {
      if handoff.None? {
        return NotFound;
      }
      if handoff.value == caller {
        return Forbidden;
      }
      if lock.Some? {
        return Refused;
      }
      lock := Some(caller);
      if !Active(status) || handoffs >= 1 || !allowed {
        lock := None;
        return Refused;
      }
      original := Some(driver);
      driver := caller;
      handoffs := 1;
      handoff := None;
      lock := None;
      return Done;
    }

    method CancelHandoff(caller: nat) returns (reply: Reply)
      modifies this`handoff
      ensures reply == if driver != caller then Forbidden else if old(handoff).None? then Refused else Done
      ensures handoff == if reply.Done? then None else old(handoff)
    {
      if driver != caller {
        return Forbidden;
      }
      if handoff.None? {
        return Refused;
      }
      handoff := None;
      return Done;
    }

    method ExpireHandoff()
      modifies this`handoff
      ensures handoff.None?
    {
      if handoff.None? {
        return;
      }
      handoff := None;
    }
  }

  predicate Accepts(w: World, driver: nat, allowed: bool) {
    w.handoff.Some? && w.handoff.value != driver && Transferable(w.booking) && allowed
  }

  /** An accept that nobody interrupts does in the step model what the method above does,
      refusals included. */
  lemma AcceptAlone(w: World, call: nat, driver: nat, allowed: bool)
    requires call !in w.calls && w.lock.None?
    ensures var v := Runs.Run(Step, w, WholeAccept(call, driver, allowed));
      && v.lock.None?
      && v.handoff == (if Accepts(w, driver, allowed) then None else w.handoff)
      && v.booking == (if Accepts(w, driver, allowed)
                       then Booking(driver, Some(w.booking.driver), 1, w.booking.status) else w.booking)
  {
    var es := WholeAccept(call, driver, allowed);
    var w1 := Step(w, es[0]);
    var w2 := Step(w1, es[1]);
    var w3 := Step(w2, es[2]);
    var w4 := Step(w3, es[3]);
    assert w4.booking == w.booking && w4.handoff == w.handoff
        && (if Accepts(w, driver, allowed)
            then StageOf(w4, call) == Checked(w.booking) && w4.calls[call].driver == driver
            else (StageOf(w4, call).Ended? && w4.lock.None?) || StageOf(w4, call).Deleted?);
    FinishesAlone(w4, call);
    Runs.RunTrace(Step, es, [w, w1, w2, w3, w4, Step(w4, es[4]), Step(Step(w4, es[4]), es[5]),
                             Step(Step(Step(w4, es[4]), es[5]), es[6])]);
  }

  function WholeAccept(call: nat, driver: nat, allowed: bool): seq<Event> {
    [AcceptReads(call, driver), TakeLock(call), ReadBooking(call), Check(call, allowed), Save(call),
     DeleteHandoff(call), Release(call)]
  }

  /** The save, the deletion and the release, for an accept that got so far; only the release
      for one that was refused under the lock; nothing for one refused before. */
  lemma FinishesAlone(w: World, call: nat)
    requires StageOf(w, call).Checked? || StageOf(w, call).Deleted? || (StageOf(w, call).Ended? && w.lock.None?)
    ensures var v := Step(Step(Step(w, Save(call)), DeleteHandoff(call)), Release(call));
      && v.lock.None?
      && v.handoff == (if StageOf(w, call).Checked? then None else w.handoff)
      && v.booking == (if StageOf(w, call).Checked?
                       then Booking(w.calls[call].driver, Some(StageOf(w, call).booking.driver), 1,
                                    StageOf(w, call).booking.status)
                       else w.booking)
  {
  }

  /** A request that nobody interrupts: it is stored exactly when the assigned driver may hand
      the booking over and no request is there. */
  lemma RequestAlone(w: World, call: nat, driver: nat)
    requires call !in w.calls
    ensures var v := Runs.Run(Step, w, [RequestReads(call, driver), RequestLooks(call), RequestStores(call)]);
      && StageOf(v, call).Ended? && v.booking == w.booking
      && v.handoff == (if w.booking.driver == driver && Transferable(w.booking) && w.handoff.None?
                       then Some(driver) else w.handoff)
  {
    var es := [RequestReads(call, driver), RequestLooks(call), RequestStores(call)];
    var w1 := Step(w, es[0]);
    var w2 := Step(w1, es[1]);
    Runs.RunTrace(Step, es, [w, w1, w2, Step(w2, es[2])]);
  }

  /** A cancellation withdraws the request of the assigned driver, and nobody else's; an expiry
      withdraws whatever is there. */
  lemma CancelAlone(w: World, call: nat, driver: nat)
    requires call !in w.calls
    ensures var v := Runs.Run(Step, w, [CancelReads(call, driver), CancelLooks(call), Deletes(call)]);
      && StageOf(v, call).Ended? && v.booking == w.booking
      && v.handoff == (if w.booking.driver == driver then None else w.handoff)
  {
    var es := [CancelReads(call, driver), CancelLooks(call), Deletes(call)];
    var w1 := Step(w, es[0]);
    var w2 := Step(w1, es[1]);
    Runs.RunTrace(Step, es, [w, w1, w2, Step(w2, es[2])]);
  }

  lemma ExpiryAlone(w: World, call: nat)
    requires call !in w.calls
    ensures var v := Runs.Run(Step, w, [ExpiryLooks(call), Deletes(call)]);
      StageOf(v, call).Ended? && v.booking == w.booking && v.handoff.None?
  {
    var es := [ExpiryLooks(call), Deletes(call)];
    var w1 := Step(w, es[0]);
    Runs.RunTrace(Step, es, [w, w1, Step(w1, es[1])]);
  }
}
