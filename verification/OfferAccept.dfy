/** Accepting one offer: any number of accept calls, split at every Redis command and
    database write, interleaved with expiring keys and with the dispatch methods, whole or
    split between reading the offer and writing what follows from it. */
module OfferAccept {
  import opened OfferDispatch
  import opened Options
  import Runs

  /** What an accept call has done so far. `Cleaning(n)` has made the first `n` deletions:
      offer, holder, excluded, vehicle type, broadcast flag, broadcast drivers, lock. */
  datatype Stage =
    | HasOffer
    | Locked
    | Verified
    | SawBroadcast(broadcast: bool)
    | Admitted
    | Cleaning(n: nat)
    | Ended

  datatype Call = Call(driver: nat, stage: Stage)

  /** What a dispatch method that has read the offer is about to write: a search the holder, a
      broadcast its flag; a fare update, a retry and a search timeout the offer itself. */
  datatype Writer = HolderWriter | FlagWriter | OfferWriter

  /** `lock` names the call that holds the accept lock; `tasks` are the dispatch methods
      between read and write. `staleWrites` counts the writes that found the offer gone;
      `failures` counts the accepts that failed with their booking already inserted. */
  datatype World = World(
    dispatch: Dispatch,
    lock: Option<nat>,
    calls: map<nat, Call>,
    bookings: seq<nat>, // the driver of each booking created
    tasks: map<nat, Writer>,
    staleWrites: nat,
    failures: nat)

  datatype Event =
    | ReadOffer(call: nat, driver: nat)
    | TakeLock(call: nat)
    | Verify(call: nat, ok: bool) // driver, vehicle, no active order
    | ReadBroadcast(call: nat)
    | ReadHolder(call: nat)
    | Insert(call: nat, ok: bool)
    | Clean(call: nat)
    | FailAfterInsert(call: nat) // the catch frees the lock and leaves the keys
    | Dispatcher(event: OfferDispatch.Event)
    | MethodReads(task: nat, writer: Writer)
    | WriteHolder(task: nat, driver: nat, excluded: seq<nat>, attempt: int)
    | WriteFlag(task: nat, wide: seq<nat>)
    | WriteOffer(task: nat, offer: Offer, again: bool) // a retry queues a search timeout too
    | MethodStops(task: nat)

  function StageOf(w: World, call: nat): Stage {
    if call in w.calls then w.calls[call].stage else Ended
  }

  function Goes(w: World, call: nat, stage: Stage): World
    requires call in w.calls
  {
    w.(calls := w.calls[call := w.calls[call].(stage := stage)])
  }

  /** Give up: the lock is deleted. */
  function Leaves(w: World, call: nat): World
    requires call in w.calls
  {
    Goes(w, call, Ended).(lock := None)
  }

  function Deleted(keys: Keys, n: nat): Keys {
    match n
    case 0 => keys.(offer := None)
    case 1 => keys.(holder := None)
    case 2 => keys.(excluded := None)
    case 3 => keys
    case 4 => keys.(broadcast := false)
    case 5 => keys.(broadcastDrivers := None)
    case _ => keys
  }

  function AfterClean(w: World, call: nat): World
    requires StageOf(w, call).Cleaning?
  {
    var n := StageOf(w, call).n;
    if n >= 6 then Leaves(w, call)
    else Goes(w, call, Cleaning(n + 1)).(dispatch := w.dispatch.(keys := Deleted(w.dispatch.keys, n)))
  }

  function Step(max: nat, w: World, e: Event): World {
    match e
    case ReadOffer(call, driver) =>
      if call in w.calls then w
      else w.(calls := w.calls[call := Call(driver, if w.dispatch.keys.offer.Some? then HasOffer else Ended)])
    case TakeLock(call) =>
      if StageOf(w, call) != HasOffer then w
      else if w.lock.Some? then Goes(w, call, Ended)
      else Goes(w, call, Locked).(lock := Some(call))
    case Verify(call, ok) =>
      if StageOf(w, call) != Locked then w
      else if ok then Goes(w, call, Verified) else Leaves(w, call)
    case ReadBroadcast(call) =>
      if StageOf(w, call) != Verified then w
      else Goes(w, call, SawBroadcast(w.dispatch.keys.broadcast))
    case ReadHolder(call) =>
      if !StageOf(w, call).SawBroadcast? then w
      else if StageOf(w, call).broadcast || w.dispatch.keys.holder == Some(w.calls[call].driver)
      then Goes(w, call, Admitted) else Leaves(w, call)
    case Insert(call, ok) =>
      if StageOf(w, call) != Admitted then w
      else if ok then Goes(w, call, Cleaning(0)).(bookings := w.bookings + [w.calls[call].driver])
      else Leaves(w, call)
    case Clean(call) =>
      if StageOf(w, call).Cleaning? then AfterClean(w, call) else w
    case FailAfterInsert(call) =>
      if StageOf(w, call).Cleaning? then Leaves(w, call).(failures := w.failures + 1) else w
    case Dispatcher(event) =>
      if event.Accept? then w else w.(dispatch := OfferDispatch.Step(max, w.dispatch, event))
    case MethodReads(task, writer) =>
      if task !in w.tasks && MayRead(w.dispatch.keys, writer)
      then w.(tasks := w.tasks[task := writer]) else w
    case WriteHolder(task, driver, excluded, attempt) =>
      if Writes(w, task, HolderWriter)
      then AfterMethod(w, task, AfterOffering(w.dispatch, driver, excluded, attempt)) else w
    case WriteFlag(task, wide) =>
      if Writes(w, task, FlagWriter) && wide != [] then AfterMethod(w, task, AfterFlag(w.dispatch, wide)) else w
    case WriteOffer(task, offer, again) =>
      if Writes(w, task, OfferWriter)
      then AfterMethod(w, task, Rewritten(w.dispatch, offer, again)) else w
    case MethodStops(task) => w.(tasks := w.tasks - {task})
  }

  predicate MayRead(keys: Keys, writer: Writer) {
    keys.offer.Some? && (writer.HolderWriter? ==> !keys.offer.value.timedOut)
  }

  predicate Writes(w: World, task: nat, writer: Writer) {
    task in w.tasks && w.tasks[task] == writer
  }

  function Rewritten(d: Dispatch, offer: Offer, again: bool): Dispatch {
    var c := d.(keys := d.keys.(offer := Some(offer)));
    if again then Queued(c, SearchTimeout) else c
  }

  function AfterMethod(w: World, task: nat, d: Dispatch): World {
    w.(dispatch := d, tasks := w.tasks - {task},
       staleWrites := if w.dispatch.keys.offer.None? then w.staleWrites + 1 else w.staleWrites)
  }

  function Init(d: Dispatch): World {
    World(d, None, map[], [], map[], 0, 0)
  }

  function RunFrom(max: nat, w: World, es: seq<Event>): World {
    Runs.Run((w, e) => Step(max, w, e), w, es)
  }

  // ---------------------------------------------------------------------------------------
  // At most one booking
  // ---------------------------------------------------------------------------------------

  predicate Critical(stage: Stage) {
    !stage.HasOffer? && !stage.Ended?
  }

  /** Only the call that holds the lock is between taking and deleting it. */
  ghost predicate Exclusive(w: World) {
    forall call: nat :: Critical(StageOf(w, call)) ==> w.lock == Some(call)
  }

  predicate Closed(keys: Keys) {
    keys.offer.None? && keys.holder.None? && !keys.broadcast
  }

  predicate CleanSoFar(keys: Keys, n: nat) {
    (n >= 1 ==> keys.offer.None?) && (n >= 2 ==> keys.holder.None?) && (n >= 5 ==> !keys.broadcast)
  }

  /** Past the point where a call can still create a booking. */
  predicate Harmless(stage: Stage) {
    match stage
    case SawBroadcast(broadcast) => !broadcast
    case Admitted => false
    case Cleaning(_) => false
    case _ => true
  }

  ghost predicate BeingBooked(w: World) {
    w.lock.Some? && StageOf(w, w.lock.value).Cleaning?
    && CleanSoFar(w.dispatch.keys, StageOf(w, w.lock.value).n)
  }

  ghost predicate Booked(w: World) {
    Closed(w.dispatch.keys) && forall call: nat :: Harmless(StageOf(w, call))
  }

  ghost predicate OneBooking(w: World) {
    && Exclusive(w)
    && |w.bookings| <= 1
    && (w.bookings == [] ==> forall call: nat :: !StageOf(w, call).Cleaning?)
    && (w.bookings != [] ==> BeingBooked(w) || Booked(w))
  }

  ghost predicate Safe(w: World) {
    w.staleWrites == 0 && w.failures == 0 ==> OneBooking(w)
  }

  predicate ByCall(e: Event) {
    match e
    case Dispatcher(_) => false
    case MethodReads(_, _) => false
    case WriteHolder(_, _, _, _) => false
    case WriteFlag(_, _) => false
    case WriteOffer(_, _, _) => false
    case MethodStops(_) => false
    case _ => true
  }

  lemma StepExclusive(max: nat, w: World, e: Event)
    requires Exclusive(w)
    ensures Exclusive(Step(max, w, e))
  {
    hide Deleted, AfterOffering, AfterFlag, Rewritten, OfferDispatch.Step;
    var v := Step(max, w, e);
    if ByCall(e) {
      assert forall call: nat :: call != e.call ==> StageOf(v, call) == StageOf(w, call);
    } else {
      assert forall call: nat :: StageOf(v, call) == StageOf(w, call);
    }
  }

  lemma HolderOnly(w: World, call: nat)
    requires Exclusive(w)
    ensures Critical(StageOf(w, call)) ==> w.lock == Some(call)
  {
  }

  /** Before the booking: only an insert makes one, and starts the deletions. */
  lemma UnbookedCallStep(max: nat, w: World, e: Event)
    requires OneBooking(w) && ByCall(e) && w.bookings == []
    ensures var v := Step(max, w, e);
      && |v.bookings| <= 1
      && (v.bookings == [] ==> forall call: nat :: !StageOf(v, call).Cleaning?)
      && (v.bookings != [] ==> BeingBooked(v))
  {
    var v := Step(max, w, e);
    assert forall call: nat :: call != e.call ==> StageOf(v, call) == StageOf(w, call);
    HolderOnly(w, e.call);
    hide Exclusive, Booked;
  }

  lemma CleaningGoesOn(w: World, call: nat)
    requires Exclusive(w) && StageOf(w, call).Cleaning? && BeingBooked(w)
    ensures BeingBooked(AfterClean(w, call)) || Booked(AfterClean(w, call))
  {
    var v := AfterClean(w, call);
    HolderOnly(w, call);
    assert forall other: nat :: other != call ==> StageOf(v, other) == StageOf(w, other);
  }

  /** After it: the deletions go on, and nobody else gets past the check. */
  lemma BookedCallStep(max: nat, w: World, e: Event)
    requires OneBooking(w) && ByCall(e) && w.bookings != []
    requires Step(max, w, e).failures == w.failures
    ensures var v := Step(max, w, e);
      v.bookings == w.bookings && (BeingBooked(v) || Booked(v))
  {
    var v := Step(max, w, e);
    HolderOnly(w, e.call);
    if StageOf(w, e.call).Cleaning? {
      if e.Clean? {
        CleaningGoesOn(w, e.call);
        hide *;
      }
    } else {
      assert forall call: nat :: call != e.call ==> StageOf(v, call) == StageOf(w, call);
      hide Exclusive, AfterClean;
    }
  }

  lemma CallStep(max: nat, w: World, e: Event)
    requires OneBooking(w) && ByCall(e)
    requires Step(max, w, e).failures == w.failures
    ensures OneBooking(Step(max, w, e))
  {
    StepExclusive(max, w, e);
    if w.bookings == [] {
      UnbookedCallStep(max, w, e);
    } else {
      BookedCallStep(max, w, e);
    }
    hide Exclusive, Booked, BeingBooked, Step;
  }

  lemma DispatchStep(max: nat, w: World, e: Event)
    requires OneBooking(w) && !ByCall(e)
    requires Step(max, w, e).staleWrites == 0
    ensures OneBooking(Step(max, w, e))
  {
    var v := Step(max, w, e);
    assert forall call: nat :: StageOf(v, call) == StageOf(w, call);
  }

  lemma StepSafe(max: nat, w: World, e: Event)
    requires Safe(w)
    ensures Safe(Step(max, w, e))
  {
    if Step(max, w, e).staleWrites == 0 && Step(max, w, e).failures == 0 {
      if ByCall(e) {
        CallStep(max, w, e);
      } else {
        DispatchStep(max, w, e);
      }
    }
  }

  lemma RunSafe(max: nat, d: Dispatch, es: seq<Event>)
    ensures Safe(RunFrom(max, Init(d), es))
  {
    forall w, e | Safe(w) ensures Safe(Step(max, w, e)) {
      StepSafe(max, w, e);
    }
    Runs.RunKeeps((w, e) => Step(max, w, e), w => Safe(w), Init(d), es);
  }

  /** Over every interleaving, of any number of accept calls by any drivers with any number of
      dispatch methods, an offer becomes at most one booking, as long as no method writes for
      an offer that is gone and no accept fails after its insert. */
  lemma AtMostOneBooking(max: nat, d: Dispatch, es: seq<Event>)
    ensures var w := RunFrom(max, Init(d), es);
      w.staleWrites == 0 && w.failures == 0 ==> |w.bookings| <= 1
  {
    RunSafe(max, d, es);
  }

  predicate WholeMethod(e: Event) {
    !e.MethodReads? && !e.FailAfterInsert?
  }

  /** In particular when every dispatch method runs without interruption and what follows an
      insert does not fail. */
  lemma AtomicDispatchBooksOnce(max: nat, d: Dispatch, es: seq<Event>)
    requires forall i :: 0 <= i < |es| ==> WholeMethod(es[i])
    ensures |RunFrom(max, Init(d), es).bookings| <= 1
  {
    AtMostOneBooking(max, d, es);
    forall w: World, e | NothingWrong(w) && WholeMethod(e) ensures NothingWrong(Step(max, w, e)) {
    }
    Runs.RunOfKeeps((w, e) => Step(max, w, e), WholeMethod, NothingWrong, Init(d), es);
  }

  predicate NothingWrong(w: World) {
    w.staleWrites == 0 && w.failures == 0 && w.tasks == map[]
  }

  // ---------------------------------------------------------------------------------------
  // A timed-out offer, with dispatch methods split
  // ---------------------------------------------------------------------------------------

  /** A late write: a holder or a broadcast for an offer that timed out since it was read, or
      the mark set back while there is a holder or a broadcast. */
  predicate Disturbs(w: World, e: Event) {
    var keys := w.dispatch.keys;
    match e
    case WriteHolder(task, _, _, _) => Writes(w, task, HolderWriter) && keys.offer.Some? && keys.offer.value.timedOut
    case WriteFlag(task, wide) =>
      Writes(w, task, FlagWriter) && wide != [] && keys.offer.Some? && keys.offer.value.timedOut
    case WriteOffer(task, offer, _) =>
      Writes(w, task, OfferWriter) && offer.timedOut
      && (keys.holder.Some? || keys.broadcast || keys.broadcastDrivers.Some?)
    case _ => false
  }

  /** Over every run, whatever was split in it: the next event gives a timed-out offer a holder
      or a broadcast if and only if it is such a write. */
  lemma TimedOutDisturbedExactly(max: nat, d: Dispatch, es: seq<Event>, e: Event)
    ensures var w := RunFrom(max, Init(d), es);
      Quiet(w.dispatch.keys) ==> (Quiet(Step(max, w, e).dispatch.keys) <==> !Disturbs(w, e))
  {
    var w := RunFrom(max, Init(d), es);
    if e.Dispatcher? && Quiet(w.dispatch.keys) {
      StepQuiet(max, w.dispatch, e.event);
    }
  }

  // ---------------------------------------------------------------------------------------
  // The steps of one accept
  // ---------------------------------------------------------------------------------------

  /** The steps of one accept call, from reading the offer to deleting the lock. */
  function FromLock(call: nat): seq<Event> {
    [TakeLock(call), Verify(call, true), ReadBroadcast(call), ReadHolder(call), Insert(call, true)]
  }

  function Cleanup(call: nat): seq<Event> {
    [Clean(call), Clean(call), Clean(call), Clean(call), Clean(call), Clean(call), Clean(call)]
  }

  /** A locked call that is admitted creates its booking. */
  lemma Books(max: nat, w: World, call: nat)
    requires StageOf(w, call).HasOffer? && w.lock.None?
    requires w.dispatch.keys.broadcast || w.dispatch.keys.holder == Some(w.calls[call].driver)
    ensures var v := Runs.Run((w, e) => Step(max, w, e), w, FromLock(call));
      v == w.(calls := w.calls[call := w.calls[call].(stage := Cleaning(0))], lock := Some(call),
              bookings := w.bookings + [w.calls[call].driver])
  {
    var es := FromLock(call);
    var w1 := Step(max, w, es[0]);
    var w2 := Step(max, w1, es[1]);
    var w3 := Step(max, w2, es[2]);
    var w4 := Step(max, w3, es[3]);
    Runs.RunTrace((w, e) => Step(max, w, e), es, [w, w1, w2, w3, w4, Step(max, w4, es[4])]);
  }

  /** The deletions leave no key of the offer and free the lock. */
  lemma CleansUp(max: nat, w: World, call: nat)
    requires StageOf(w, call) == Cleaning(0)
    ensures var v := Runs.Run((w, e) => Step(max, w, e), w, Cleanup(call));
      v == w.(calls := w.calls[call := w.calls[call].(stage := Ended)], lock := None,
              dispatch := w.dispatch.(keys := Gone))
  {
    Unclean(w, call);
    LastCleanStep(max, w, call);
    forall n: nat | n < 6 ensures Step(max, Cleaned(w, call, n), Clean(call)) == Cleaned(w, call, n + 1) {
      CleanStep(max, w, call, n);
    }
    hide Step, Cleaned;
    var states := seq(7, n requires 0 <= n < 7 => Cleaned(w, call, n)) + [Step(max, Cleaned(w, call, 6), Clean(call))];
    var es := Cleanup(call);
    forall n: nat | n < 7 ensures Step(max, states[n], es[n]) == states[n + 1] {
    }
    Runs.RunTrace((w, e) => Step(max, w, e), es, states);
  }

  function DeletedUpTo(keys: Keys, n: nat): Keys {
    if n == 0 then keys else Deleted(DeletedUpTo(keys, n - 1), n - 1)
  }

  /** After the first `n` deletions. */
  function Cleaned(w: World, call: nat, n: nat): World
    requires call in w.calls
  {
    w.(calls := w.calls[call := w.calls[call].(stage := Cleaning(n))],
       dispatch := w.dispatch.(keys := DeletedUpTo(w.dispatch.keys, n)))
  }

  lemma Unclean(w: World, call: nat)
    requires StageOf(w, call) == Cleaning(0)
    ensures Cleaned(w, call, 0) == w
  {
  }

  lemma CleanStep(max: nat, w: World, call: nat, n: nat)
    requires call in w.calls && n < 6
    ensures Step(max, Cleaned(w, call, n), Clean(call)) == Cleaned(w, call, n + 1)
  {
    var c := Cleaned(w, call, n);
    assert c.calls[call := c.calls[call].(stage := Cleaning(n + 1))] == Cleaned(w, call, n + 1).calls;
    hide Deleted;
  }

  lemma LastCleanStep(max: nat, w: World, call: nat)
    requires call in w.calls
    ensures Step(max, Cleaned(w, call, 6), Clean(call)) ==
      w.(calls := w.calls[call := w.calls[call].(stage := Ended)], lock := None,
         dispatch := w.dispatch.(keys := Gone))
  {
    var keys := w.dispatch.keys;
    assert DeletedUpTo(keys, 1) == keys.(offer := None);
    assert DeletedUpTo(keys, 2) == keys.(offer := None, holder := None);
    assert DeletedUpTo(keys, 3) == DeletedUpTo(keys, 4) == keys.(offer := None, holder := None, excluded := None);
    assert DeletedUpTo(keys, 5) == Gone.(broadcastDrivers := keys.broadcastDrivers);
    assert DeletedUpTo(keys, 6) == Gone;
    hide DeletedUpTo;
    var c := Cleaned(w, call, 6);
    assert c.calls[call := c.calls[call].(stage := Ended)] == w.calls[call := w.calls[call].(stage := Ended)];
  }

  // ---------------------------------------------------------------------------------------
  // When another booking can still follow
  // ---------------------------------------------------------------------------------------

  /** The offer is there, or a method is about to write it back, or some call has read it and
      will pass the check with the keys as they are or as another method is about to write
      them. */
  ghost predicate Open(w: World) {
    || w.dispatch.keys.offer.Some?
    || (exists m :: Writes(w, m, OfferWriter))
    || (exists call: nat :: StageOf(w, call).HasOffer? && MayPass(w, call))
  }

  predicate MayPass(w: World, call: nat)
    requires call in w.calls
  {
    w.dispatch.keys.broadcast || w.dispatch.keys.holder == Some(w.calls[call].driver) || w.tasks != map[]
  }

  ghost predicate BooksAgain(max: nat, w: World) {
    exists more: seq<Event> :: |RunFrom(max, w, more).bookings| > |w.bookings|
  }

  /** Nothing that can still happen creates a booking. */
  ghost predicate Shut(w: World) {
    && w.dispatch.keys.offer.None?
    && (forall m :: !Writes(w, m, OfferWriter))
    && (forall call: nat :: Stuck(w, call))
  }

  predicate Stuck(w: World, call: nat) {
    match StageOf(w, call)
    case Ended => true
    case Admitted => false
    case Cleaning(_) => false
    case SawBroadcast(broadcast) => !broadcast && !MayPass(w, call)
    case _ => !MayPass(w, call)
  }

  lemma StepShut(max: nat, w: World, e: Event)
    requires Shut(w)
    ensures Shut(Step(max, w, e)) && Step(max, w, e).bookings == w.bookings
  {
    var v := Step(max, w, e);
    if ByCall(e) {
      assert Stuck(w, e.call);
      assert forall call: nat :: call != e.call ==> StageOf(v, call) == StageOf(w, call);
    } else {
      assert forall call: nat :: StageOf(v, call) == StageOf(w, call);
    }
    forall call: nat ensures Stuck(v, call) {
      assert Stuck(w, call);
    }
    forall m ensures !Writes(v, m, OfferWriter) {
      assert !Writes(w, m, OfferWriter);
    }
  }

  lemma ShutForEver(max: nat, w: World, more: seq<Event>)
    requires Shut(w)
    ensures RunFrom(max, w, more).bookings == w.bookings
  {
    var inv := (v: World) => Shut(v) && v.bookings == w.bookings;
    forall v, e | inv(v) ensures inv(Step(max, v, e)) {
      StepShut(max, v, e);
    }
    Runs.RunKeeps((w, e) => Step(max, w, e), inv, w, more);
  }

  lemma RunExclusive(max: nat, d: Dispatch, es: seq<Event>)
    ensures Exclusive(RunFrom(max, Init(d), es))
  {
    forall w, e | Exclusive(w) ensures Exclusive(Step(max, w, e)) {
      StepExclusive(max, w, e);
    }
    Runs.RunKeeps((w, e) => Step(max, w, e), w => Exclusive(w), Init(d), es);
  }

  lemma {:induction false} Above(s: set<nat>) returns (k: nat)
    ensures forall x :: x in s ==> x < k
    decreases s
  {
    if s == {} {
      k := 0;
    } else {
      var x :| x in s;
      var rest := Above(s - {x});
      k := if rest <= x then x + 1 else rest;
      assert forall y :: y in s ==> y == x || y in s - {x};
    }
  }

  /** A waiting call that passes as things are, or once the pending write is made. */
  lemma WaitingBooks(max: nat, w: World, call: nat)
    requires w.lock.None? && StageOf(w, call).HasOffer? && MayPass(w, call)
    requires forall m :: !Writes(w, m, OfferWriter)
    ensures BooksAgain(max, w)
  {
    if w.dispatch.keys.broadcast || w.dispatch.keys.holder == Some(w.calls[call].driver) {
      Books(max, w, call);
      assert |RunFrom(max, w, FromLock(call)).bookings| > |w.bookings|;
    } else {
      var m :| m in w.tasks;
      assert !Writes(w, m, OfferWriter);
      var driver := w.calls[call].driver;
      var write := if w.tasks[m].HolderWriter? then WriteHolder(m, driver, [], 1) else WriteFlag(m, [driver]);
      var v := Step(max, w, write);
      Runs.RunTrace((w, e) => Step(max, w, e), [write], [w, v]);
      Books(max, v, call);
      Then(max, w, [write], FromLock(call));
    }
  }

  lemma Then(max: nat, w: World, first: seq<Event>, rest: seq<Event>)
    requires |RunFrom(max, RunFrom(max, w, first), rest).bookings| > |w.bookings|
    ensures BooksAgain(max, w)
  {
    Runs.RunJoins((w, e) => Step(max, w, e), w, first, rest);
    assert RunFrom(max, w, first + rest) == RunFrom(max, RunFrom(max, w, first), rest);
  }

  /** A live offer can be retried, and the driver it then goes to can accept. */
  lemma LiveOfferBooks(max: nat, w: World)
    requires w.lock.None? && w.dispatch.keys.offer.Some?
    ensures BooksAgain(max, w)
  {
    var call := Above(w.calls.Keys);
    var es := [Dispatcher(Retry(0, [1], [1])), ReadOffer(call, 1)];
    var v := Step(max, w, es[0]);
    assert AcceptPasses(v.dispatch.keys, 1);
    var u := Step(max, v, es[1]);
    Runs.RunTrace((w, e) => Step(max, w, e), es, [w, v, u]);
    Books(max, u, call);
    Then(max, w, es, FromLock(call));
  }

  lemma OpenBooks(max: nat, w: World)
    requires w.lock.None? && Open(w)
    ensures BooksAgain(max, w)
  {
    if w.dispatch.keys.offer.Some? {
      LiveOfferBooks(max, w);
    } else if m :| Writes(w, m, OfferWriter) {
      var write := WriteOffer(m, Offer(0, false, 0), false);
      var v := Step(max, w, write);
      LiveOfferBooks(max, v);
      var rest: seq<Event> :| |RunFrom(max, v, rest).bookings| > |v.bookings|;
      Runs.RunTrace((w, e) => Step(max, w, e), [write], [w, v]);
      Then(max, w, [write], rest);
    } else {
      var call: nat :| StageOf(w, call).HasOffer? && MayPass(w, call);
      WaitingBooks(max, w, call);
    }
  }

  /** After every run that leaves the lock free, whatever went wrong in it: some continuation
      creates another booking if and only if things are still open. */
  lemma AnotherBookingExactly(max: nat, d: Dispatch, es: seq<Event>)
    ensures var w := RunFrom(max, Init(d), es);
      w.lock.None? ==> (BooksAgain(max, w) <==> Open(w))
  {
    var w := RunFrom(max, Init(d), es);
    RunExclusive(max, d, es);
    if w.lock.None? {
      if Open(w) {
        OpenBooks(max, w);
      } else {
        assert Shut(w);
        forall more: seq<Event> ensures RunFrom(max, w, more).bookings == w.bookings {
          ShutForEver(max, w, more);
        }
      }
    }
  }

  /** Booked with nothing gone wrong: a second booking can follow if and only if a method is
      still about to write the offer, or is about to write anything while some other driver's
      call has read the offer and not yet tried the lock. */
  lemma SecondBookingExactly(max: nat, d: Dispatch, es: seq<Event>)
    ensures var w := RunFrom(max, Init(d), es);
      w.bookings != [] && w.lock.None? && w.staleWrites == 0 && w.failures == 0 ==>
        && |w.bookings| == 1
        && (BooksAgain(max, w) <==>
              || (exists m :: Writes(w, m, OfferWriter))
              || (w.tasks != map[] && exists call: nat :: StageOf(w, call).HasOffer?))
  {
    AnotherBookingExactly(max, d, es);
    RunSafe(max, d, es);
  }

  /** An accept that fails after its insert: another booking can follow if and only if the
      offer is still there or being written back, or a waiting call may pass. */
  lemma AfterFailureExactly(max: nat, d: Dispatch, es: seq<Event>, call: nat)
    ensures var w := RunFrom(max, Init(d), es);
      StageOf(w, call).Cleaning? ==>
        (BooksAgain(max, Step(max, w, FailAfterInsert(call))) <==> Open(w))
  {
    var w := RunFrom(max, Init(d), es);
    if StageOf(w, call).Cleaning? {
      var v := Step(max, w, FailAfterInsert(call));
      AnotherBookingExactly(max, d, es + [FailAfterInsert(call)]);
      Runs.RunJoins((w, e) => Step(max, w, e), Init(d), es, [FailAfterInsert(call)]);
      Runs.RunTrace((w, e) => Step(max, w, e), [FailAfterInsert(call)], [w, v]);
      assert forall m :: Writes(v, m, OfferWriter) == Writes(w, m, OfferWriter);
      forall other: nat ensures StageOf(v, other).HasOffer? == StageOf(w, other).HasOffer? {
      }
    }
  }

  // ---------------------------------------------------------------------------------------
  // Writes that come too late
  // ---------------------------------------------------------------------------------------

  /** Two drivers and a dispatch method read the offer. */
  function AllRead(writer: Writer): seq<Event> {
    [ReadOffer(10, 1), ReadOffer(20, 2), MethodReads(0, writer)]
  }

  lemma AllReadOffer(max: nat, d: Dispatch, writer: Writer)
    requires d.keys.offer == Some(Offer(100, false, 0))
    ensures RunFrom(max, Init(d), AllRead(writer)) ==
      World(d, None, map[10 := Call(1, HasOffer), 20 := Call(2, HasOffer)], [], map[0 := writer], 0, 0)
  {
    var es := AllRead(writer);
    var w1 := Step(max, Init(d), es[0]);
    var w2 := Step(max, w1, es[1]);
    Runs.RunTrace((w, e) => Step(max, w, e), es, [Init(d), w1, w2, Step(max, w2, es[2])]);
  }

  /** Then the first driver's accept runs to its end. */
  function FirstAccept(writer: Writer): seq<Event> {
    AllRead(writer) + FromLock(10) + Cleanup(10)
  }

  lemma FirstAcceptBooks(max: nat, d: Dispatch, writer: Writer)
    requires d.keys == Gone.(offer := Some(Offer(100, false, 0)), holder := Some(1), excluded := Some([1]))
    ensures RunFrom(max, Init(d), FirstAccept(writer)) ==
      World(d.(keys := Gone), None, map[10 := Call(1, Ended), 20 := Call(2, HasOffer)], [1], map[0 := writer], 0, 0)
  {
    var step := (w, e) => Step(max, w, e);
    var start := AllRead(writer);
    AllReadOffer(max, d, writer);
    var w1 := RunFrom(max, Init(d), start);
    Books(max, w1, 10);
    hide Step, FromLock, AllRead;
    CleansUp(max, RunFrom(max, w1, FromLock(10)), 10);
    Runs.RunJoins(step, Init(d), start, FromLock(10));
    Runs.RunJoins(step, Init(d), start + FromLock(10), Cleanup(10));
  }

  /** The method then writes, and the second driver's accept goes on. */
  lemma LateWriteBooks(max: nat, d: Dispatch, writer: Writer, write: Event)
    requires d.keys == Gone.(offer := Some(Offer(100, false, 0)), holder := Some(1), excluded := Some([1]))
    requires || (write == WriteHolder(0, 2, [1], 2) && writer.HolderWriter?)
             || (write == WriteFlag(0, [2]) && writer.FlagWriter?)
    ensures var w := RunFrom(max, Init(d), FirstAccept(writer) + ([write] + FromLock(20)));
      w.bookings == [1, 2] && w.staleWrites == 1 && w.failures == 0
  {
    var step := (w, e) => Step(max, w, e);
    FirstAcceptBooks(max, d, writer);
    var w1 := RunFrom(max, Init(d), FirstAccept(writer));
    var w2 := Step(max, w1, write);
    Runs.RunTrace(step, [write], [w1, w2]);
    Books(max, w2, 20);
    hide FromLock, FirstAccept;
    Runs.RunJoins(step, w1, [write], FromLock(20));
    Runs.RunJoins(step, Init(d), FirstAccept(writer), [write] + FromLock(20));
  }

  /** A search names the second driver as holder of an offer that is gone. */
  lemma StaleSearchBooksTwice(max: nat, d: Dispatch)
    requires d.keys == Gone.(offer := Some(Offer(100, false, 0)), holder := Some(1), excluded := Some([1]))
    ensures var w := RunFrom(max, Init(d), FirstAccept(HolderWriter) + ([WriteHolder(0, 2, [1], 2)] + FromLock(20)));
      w.bookings == [1, 2] && w.staleWrites == 1 && w.failures == 0
  {
    LateWriteBooks(max, d, HolderWriter, WriteHolder(0, 2, [1], 2));
  }

  /** A broadcast raises its flag for an offer that is gone. */
  lemma StaleBroadcastBooksTwice(max: nat, d: Dispatch)
    requires d.keys == Gone.(offer := Some(Offer(100, false, 0)), holder := Some(1), excluded := Some([1]))
    ensures var w := RunFrom(max, Init(d), FirstAccept(FlagWriter) + ([WriteFlag(0, [2])] + FromLock(20)));
      w.bookings == [1, 2] && w.staleWrites == 1 && w.failures == 0
  {
    LateWriteBooks(max, d, FlagWriter, WriteFlag(0, [2]));
  }

  // ---------------------------------------------------------------------------------------
  // An accept that fails after its insert
  // ---------------------------------------------------------------------------------------

  /** The first driver's booking is inserted and then not read back. */
  function LostBooking(): seq<Event> {
    [ReadOffer(10, 1)] + FromLock(10) + [FailAfterInsert(10), ReadOffer(20, 2)]
  }

  /** The lock is freed with the offer still broadcast: the next driver books it again. */
  lemma FailureAfterInsertBooksTwice(max: nat, d: Dispatch)
    requires d.keys.offer.Some? && d.keys.broadcast
    ensures var w := Runs.Run((w, e) => Step(max, w, e), Init(d), LostBooking() + FromLock(20));
      w.bookings == [1, 2] && w.staleWrites == 0 && w.failures == 1
  {
    var step := (w, e) => Step(max, w, e);
    var read := [ReadOffer(10, 1)];
    var lost := [FailAfterInsert(10), ReadOffer(20, 2)];
    var w1 := Step(max, Init(d), read[0]);
    Runs.RunTrace(step, read, [Init(d), w1]);
    Books(max, w1, 10);
    var w2 := Runs.Run(step, w1, FromLock(10));
    var w3 := Step(max, w2, lost[0]);
    var w4 := Step(max, w3, lost[1]);
    Runs.RunTrace(step, lost, [w2, w3, w4]);
    Books(max, w4, 20);
    hide FromLock;
    Runs.RunJoins(step, Init(d), read, FromLock(10));
    Runs.RunJoins(step, Init(d), read + FromLock(10), lost);
    Runs.RunJoins(step, Init(d), LostBooking(), FromLock(20));
  }

  // ---------------------------------------------------------------------------------------
  // One accept call on its own
  // ---------------------------------------------------------------------------------------

  /** Run without interruption, the steps of an accept are the atomic accept of the dispatch
      model, and they create a booking exactly when that one passes. */
  lemma AcceptAlone(max: nat, w: World, call: nat, driver: nat)
    requires call !in w.calls && w.lock.None?
    ensures var v := Runs.Run((w, e) => Step(max, w, e), w, [ReadOffer(call, driver)] + FromLock(call) + Cleanup(call));
      && v.dispatch == AfterAccept(w.dispatch, driver)
      && v.bookings == (if AcceptPasses(w.dispatch.keys, driver) then w.bookings + [driver] else w.bookings)
      && v.lock.None?
  {
    var step := (w, e) => Step(max, w, e);
    var read := [ReadOffer(call, driver)];
    var w1 := Step(max, w, read[0]);
    Runs.RunTrace(step, read, [w, w1]);
    if AcceptPasses(w.dispatch.keys, driver) {
      Books(max, w1, call);
      CleansUp(max, Runs.Run(step, w1, FromLock(call)), call);
    } else {
      Refused(max, w1, call);
    }
    hide Step, FromLock, Cleanup;
    Runs.RunJoins(step, w, read, FromLock(call));
    Runs.RunJoins(step, w, read + FromLock(call), Cleanup(call));
  }

  /** A call that does not pass ends with nothing changed. */
  lemma Refused(max: nat, w: World, call: nat)
    requires call in w.calls && w.lock.None?
    requires StageOf(w, call).Ended? ||
      (StageOf(w, call).HasOffer? && !w.dispatch.keys.broadcast && w.dispatch.keys.holder != Some(w.calls[call].driver))
    ensures var v := RunFrom(max, RunFrom(max, w, FromLock(call)), Cleanup(call));
      v == w.(calls := w.calls[call := w.calls[call].(stage := Ended)])
  {
    if StageOf(w, call).Ended? {
      assert w == w.(calls := w.calls[call := w.calls[call].(stage := Ended)]);
      var es := FromLock(call);
      Runs.RunTrace((w, e) => Step(max, w, e), es, [w, w, w, w, w, w]);
      CleanupIdle(max, w, call);
    } else {
      TurnedAway(max, w, call);
      CleanupIdle(max, w.(calls := w.calls[call := w.calls[call].(stage := Ended)]), call);
    }
  }

  lemma TurnedAway(max: nat, w: World, call: nat)
    requires w.lock.None? && StageOf(w, call).HasOffer?
    requires !w.dispatch.keys.broadcast && w.dispatch.keys.holder != Some(w.calls[call].driver)
    ensures Runs.Run((w, e) => Step(max, w, e), w, FromLock(call))
         == w.(calls := w.calls[call := w.calls[call].(stage := Ended)])
  {
    var es := FromLock(call);
    var w1 := Step(max, w, es[0]);
    var w2 := Step(max, w1, es[1]);
    var w3 := Step(max, w2, es[2]);
    var w4 := Step(max, w3, es[3]);
    Runs.RunTrace((w, e) => Step(max, w, e), es, [w, w1, w2, w3, w4, w4]);
  }

  lemma CleanupIdle(max: nat, w: World, call: nat)
    requires !StageOf(w, call).Cleaning?
    ensures Runs.Run((w, e) => Step(max, w, e), w, Cleanup(call)) == w
  {
    Runs.RunTrace((w, e) => Step(max, w, e), Cleanup(call), [w, w, w, w, w, w, w, w]);
  }

  /** Run without interruption, an accept that fails its checks, or whose insert fails, books
      nothing, leaves the offer as it is and frees the lock. */
  lemma FailedAcceptAlone(max: nat, w: World, call: nat, driver: nat, verified: bool, stored: bool)
    requires call !in w.calls && w.lock.None? && !(verified && stored)
    ensures var v := RunFrom(max, w, Accepting(call, driver, verified, stored));
      v.dispatch == w.dispatch && v.bookings == w.bookings && v.lock.None? && StageOf(v, call).Ended?
  {
    var es := Accepting(call, driver, verified, stored);
    var w1 := Step(max, w, es[0]);
    var w2 := Step(max, w1, es[1]);
    var w3 := Step(max, w2, es[2]);
    assert w3.dispatch == w.dispatch && w3.bookings == w.bookings;
    assert (StageOf(w3, call).Ended? && w3.lock.None?) || (StageOf(w3, call).Verified? && !stored);
    FailedInsert(max, w3, call);
    var w4 := Step(max, w3, es[3]);
    var w5 := Step(max, w4, es[4]);
    Runs.RunTrace((w, e) => Step(max, w, e), es, [w, w1, w2, w3, w4, w5, Step(max, w5, es[5])]);
    hide Step;
  }

  function Accepting(call: nat, driver: nat, verified: bool, stored: bool): seq<Event> {
    [ReadOffer(call, driver), TakeLock(call), Verify(call, verified), ReadBroadcast(call), ReadHolder(call),
     Insert(call, stored)]
  }

  lemma FailedInsert(max: nat, w: World, call: nat)
    requires (StageOf(w, call).Ended? && w.lock.None?) || StageOf(w, call).Verified?
    ensures forall stored: bool :: StageOf(w, call).Ended? || !stored ==>
      var v := Step(max, Step(max, Step(max, w, ReadBroadcast(call)), ReadHolder(call)), Insert(call, stored));
      v.dispatch == w.dispatch && v.bookings == w.bookings && v.lock.None? && StageOf(v, call).Ended?
  {
  }

  datatype Reply = Created | OfferGone | Busy | NotAllowed | NotYours | NotConfirmed

  class AcceptDesk {
    const dispatcher: OfferDispatch.Dispatcher
    var lock: Option<nat>
    var bookings: seq<nat>

    constructor (dispatcher: OfferDispatch.Dispatcher)
      ensures this.dispatcher == dispatcher && lock.None? && bookings == []
    {
      this.dispatcher, lock, bookings := dispatcher, None, [];
    }

    /** The whole call. `verified`, `stored` and `confirmed` are the answers of the database
        before, at and after the insert. */
    method AcceptBooking(driver: nat, verified: bool, stored: bool, confirmed: bool) returns (reply: Reply)
      modifies this, dispatcher
      ensures var keys := old(dispatcher.State().keys);
        reply == (if keys.offer.None? then OfferGone else if old(lock).Some? then Busy
                  else if !verified then NotAllowed else if !AcceptPasses(keys, driver) then NotYours
                  else if !stored || !confirmed then NotConfirmed else Created)
      ensures lock == old(lock)
      ensures bookings ==
        if reply.Created? || (reply.NotConfirmed? && stored) then old(bookings) + [driver] else old(bookings)
      ensures dispatcher.State() ==
        if reply.Created? then AfterAccept(old(dispatcher.State()), driver) else old(dispatcher.State())
    {
      if dispatcher.offer.None? {
        return OfferGone;
      }
      if lock.Some? {
        return Busy;
      }
      lock := Some(driver);
      if !verified {
        lock := None;
        return NotAllowed;
      }
      var isBroadcast := dispatcher.broadcast;
      if !isBroadcast {
        if dispatcher.holder != Some(driver) {
          lock := None;
          return NotYours;
        }
      }
      if !stored {
        lock := None;
        return NotConfirmed;
      }
      bookings := bookings + [driver];
      if !confirmed {
        lock := None;
        return NotConfirmed;
      }
      dispatcher.offer := None;
      dispatcher.holder := None;
      dispatcher.excluded := None;
      dispatcher.broadcast := false;
      dispatcher.broadcastDrivers := None;
      lock := None;
      return Created;
    }
  }
}
