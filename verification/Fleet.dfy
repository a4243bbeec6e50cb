/** Which driver has which booking: accepts and handoff accepts, each split between its
    "no active order" check and its write; starts, completions and cancellations, each split
    between reading the row and saving it. */
module Fleet {
  import Runs

  datatype Status = Pending | Accepted | DriverAssigned | Ongoing | Completed | Cancelled

  datatype Ride = Ride(driver: nat, status: Status, handedOver: bool)

  datatype Target = NewBooking | Transfer(booking: nat)

  /** `seen` is the status the call read with the booking it takes over. */
  datatype Claim = Claim(driver: nat, target: Target, seen: Status)

  datatype Action = Starting | Completing | Cancelling

  /** `row` is the booking as the call read it: a save writes the whole row back. */
  datatype Change = Change(booking: nat, row: Ride, action: Action)

  /** `claims` are the calls between check and write, `changes` those between read and save.
      `overlaps` counts the checks passed by a driver who already had such a claim;
      `staleSaves` counts the saves of a row that was no longer as it was read. */
  datatype Fleet = Fleet(
    rides: map<nat, Ride>,
    claims: map<nat, Claim>,
    changes: map<nat, Change>,
    overlaps: nat,
    staleSaves: nat)

  datatype Event =
    | Check(call: nat, driver: nat, target: Target)
    | Write(call: nat, booking: nat)
    | Abandon(call: nat)
    | Whole(driver: nat, target: Target, booking: nat)
    | ReadRow(call: nat, booking: nat, action: Action)
    | Save(call: nat)
    | Act(booking: nat, action: Action) // read and save with nothing in between
    | LegacyAccept(booking: nat, driver: nat)

  predicate Active(status: Status) {
    status.Accepted? || status.DriverAssigned? || status.Ongoing?
  }

  predicate Allowed(action: Action, status: Status) {
    match action
    case Starting => status.Accepted? || status.DriverAssigned?
    case Completing => status.Ongoing?
    case Cancelling => !status.Ongoing? && !status.Completed?
  }

  function Result(action: Action): Status {
    match action
    case Starting => Ongoing
    case Completing => Completed
    case Cancelling => Cancelled
  }

  predicate Busy(f: Fleet, driver: nat) {
    exists b :: b in f.rides && f.rides[b].driver == driver && Active(f.rides[b].status)
  }

  predicate Claiming(f: Fleet, driver: nat) {
    exists c :: c in f.claims && f.claims[c].driver == driver
  }

  predicate MayClaim(f: Fleet, driver: nat, target: Target) {
    && !Busy(f, driver)
    && (target.Transfer? ==>
          target.booking in f.rides && Active(f.rides[target.booking].status) && !f.rides[target.booking].handedOver)
  }

  function Seen(f: Fleet, target: Target): Status {
    if target.Transfer? && target.booking in f.rides then f.rides[target.booking].status else Accepted
  }

  /** A transfer writes back the status it read. */
  function AfterWrite(f: Fleet, claim: Claim, booking: nat): Fleet {
    match claim.target
    case NewBooking =>
      if booking in f.rides then f else f.(rides := f.rides[booking := Ride(claim.driver, Accepted, false)])
    case Transfer(b) =>
      if b !in f.rides then f else f.(rides := f.rides[b := Ride(claim.driver, claim.seen, true)])
  }

  function Overlapping(f: Fleet, driver: nat): nat {
    if Claiming(f, driver) then f.overlaps + 1 else f.overlaps
  }

  function AfterSave(f: Fleet, c: Change): Fleet {
    f.(rides := f.rides[c.booking := c.row.(status := Result(c.action))],
       staleSaves := if c.booking in f.rides && f.rides[c.booking] == c.row then f.staleSaves else f.staleSaves + 1)
  }

  function Step(f: Fleet, e: Event): Fleet {
    match e
    case Check(call, driver, target) =>
      if call in f.claims || !MayClaim(f, driver, target) then f
      else f.(claims := f.claims[call := Claim(driver, target, Seen(f, target))], overlaps := Overlapping(f, driver))
    case Write(call, booking) =>
      if call !in f.claims then f
      else AfterWrite(f.(claims := f.claims - {call}), f.claims[call], booking)
    case Abandon(call) => f.(claims := f.claims - {call}, changes := f.changes - {call})
    case Whole(driver, target, booking) =>
      if MayClaim(f, driver, target)
      then AfterWrite(f, Claim(driver, target, Seen(f, target)), booking).(overlaps := Overlapping(f, driver))
      else f
    case ReadRow(call, b, action) =>
      if call !in f.changes && b in f.rides && Allowed(action, f.rides[b].status)
      then f.(changes := f.changes[call := Change(b, f.rides[b], action)]) else f
    case Save(call) =>
      if call in f.changes then AfterSave(f.(changes := f.changes - {call}), f.changes[call]) else f
    case Act(b, action) =>
      if b in f.rides && Allowed(action, f.rides[b].status) then AfterSave(f, Change(b, f.rides[b], action)) else f
    case LegacyAccept(b, driver) =>
      if b in f.rides && f.rides[b].status.Pending?
      then f.(rides := f.rides[b := f.rides[b].(driver := driver, status := Accepted)]) else f
  }

  const NoRides := Fleet(map[], map[], map[], 0, 0)

  // ---------------------------------------------------------------------------------------
  // One active booking a driver
  // ---------------------------------------------------------------------------------------

  ghost predicate OneActive(f: Fleet) {
    forall a, b :: a in f.rides && b in f.rides && a != b && Active(f.rides[a].status) && Active(f.rides[b].status)
      ==> f.rides[a].driver != f.rides[b].driver
  }

  ghost predicate ClaimsApart(f: Fleet) {
    && (forall c :: c in f.claims ==> !Busy(f, f.claims[c].driver))
    && (forall c, k :: c in f.claims && k in f.claims && c != k ==> f.claims[c].driver != f.claims[k].driver)
  }

  /** No booking is pending, and a call that takes one over read it active. */
  ghost predicate NonePending(f: Fleet) {
    && (forall b :: b in f.rides ==> !f.rides[b].status.Pending?)
    && (forall c :: c in f.claims ==> Active(f.claims[c].seen))
  }

  ghost predicate Fits(f: Fleet) {
    NonePending(f) && (f.overlaps == 0 && f.staleSaves == 0 ==> OneActive(f) && ClaimsApart(f))
  }

  /** Giving a free driver a ride, or a ride to a free driver. */
  lemma WriteFits(f: Fleet, claim: Claim, booking: nat)
    requires NonePending(f) && OneActive(f) && ClaimsApart(f) && Active(claim.seen)
    requires !Busy(f, claim.driver) && !Claiming(f, claim.driver)
    ensures var g := AfterWrite(f, claim, booking);
      NonePending(g) && OneActive(g) && ClaimsApart(g)
  {
  }

  /** A save of a row that is as it was read activates nothing. */
  lemma SaveFits(f: Fleet, c: Change)
    requires NonePending(f) && OneActive(f) && ClaimsApart(f)
    requires c.booking in f.rides && f.rides[c.booking] == c.row && Allowed(c.action, c.row.status)
    ensures var g := AfterSave(f, c);
      NonePending(g) && OneActive(g) && ClaimsApart(g)
  {
  }

  lemma FewerClaimsFit(f: Fleet, call: nat)
    requires NonePending(f) && OneActive(f) && ClaimsApart(f)
    ensures var g := f.(claims := f.claims - {call});
      && NonePending(g) && OneActive(g) && ClaimsApart(g)
      && (call in f.claims ==> !Busy(g, f.claims[call].driver) && !Claiming(g, f.claims[call].driver))
  {
  }

  ghost predicate ChangesAllowed(f: Fleet) {
    forall c :: c in f.changes ==> Allowed(f.changes[c].action, f.changes[c].row.status)
  }

  lemma StepNonePending(f: Fleet, e: Event)
    requires NonePending(f) && ChangesAllowed(f)
    ensures NonePending(Step(f, e)) && ChangesAllowed(Step(f, e))
  {
  }

  lemma CheckFits(f: Fleet, call: nat, driver: nat, target: Target)
    requires NonePending(f) && OneActive(f) && ClaimsApart(f)
    ensures var g := Step(f, Check(call, driver, target));
      OneActive(g) && (g.overlaps == f.overlaps ==> ClaimsApart(g))
  {
    var g := Step(f, Check(call, driver, target));
    assert forall d :: Busy(g, d) == Busy(f, d);
  }

  lemma ClaimSeen(f: Fleet, call: nat)
    requires NonePending(f) && call in f.claims
    ensures Active(f.claims[call].seen)
  {
  }

  lemma ChangeAllowed(f: Fleet, call: nat)
    requires ChangesAllowed(f) && call in f.changes
    ensures Allowed(f.changes[call].action, f.changes[call].row.status)
  {
  }

  /** The invariants speak of rides and claims only. */
  lemma RidesAndClaims(f: Fleet, g: Fleet)
    requires f.rides == g.rides && f.claims == g.claims
    ensures OneActive(f) == OneActive(g) && ClaimsApart(f) == ClaimsApart(g) && NonePending(f) == NonePending(g)
  {
    assert forall d :: Busy(g, d) == Busy(f, d);
  }

  lemma StepFits(f: Fleet, e: Event)
    requires Fits(f) && ChangesAllowed(f)
    ensures Fits(Step(f, e)) && ChangesAllowed(Step(f, e))
  {
    StepNonePending(f, e);
    var g := Step(f, e);
    if g.overlaps == 0 && g.staleSaves == 0 {
      hide OneActive, ClaimsApart, NonePending, ChangesAllowed, Busy, Claiming;
      match e
      case Check(call, driver, target) => CheckFits(f, call, driver, target);
      case Write(call, booking) =>
        if call in f.claims {
          FewerClaimsFit(f, call);
          assert Active(f.claims[call].seen) by {
            ClaimSeen(f, call);
          }
          WriteFits(f.(claims := f.claims - {call}), f.claims[call], booking);
        }
      case Abandon(call) =>
        FewerClaimsFit(f, call);
        RidesAndClaims(f.(claims := f.claims - {call}), g);
      case Whole(driver, target, booking) =>
        if MayClaim(f, driver, target) {
          WriteFits(f, Claim(driver, target, Seen(f, target)), booking);
          RidesAndClaims(AfterWrite(f, Claim(driver, target, Seen(f, target)), booking), g);
        }
      case ReadRow(call, b, action) => RidesAndClaims(f, g);
      case Save(call) =>
        if call in f.changes {
          RidesAndClaims(f, f.(changes := f.changes - {call}));
          ChangeAllowed(f, call);
          SaveFits(f.(changes := f.changes - {call}), f.changes[call]);
        }
      case Act(b, action) =>
        if b in f.rides && Allowed(action, f.rides[b].status) {
          SaveFits(f, Change(b, f.rides[b], action));
        }
      case LegacyAccept(b, driver) =>
    }
  }

  lemma RunFits(es: seq<Event>)
    ensures var f := Runs.Run(Step, NoRides, es); Fits(f) && ChangesAllowed(f)
  {
    forall f, e | Fits(f) && ChangesAllowed(f) ensures Fits(Step(f, e)) && ChangesAllowed(Step(f, e)) {
      StepFits(f, e);
    }
    Runs.RunKeeps(Step, f => Fits(f) && ChangesAllowed(f), NoRides, es);
  }

  /** However accepts, handoffs, starts, completions and cancellations are interleaved, no
      driver ever has two active bookings as long as no driver passes a check while another of
      that driver's calls is between its check and its write, and no save overwrites a row that
      has changed since it was read. */
  lemma OneActiveBooking(es: seq<Event>)
    ensures var f := Runs.Run(Step, NoRides, es);
      f.overlaps == 0 && f.staleSaves == 0 ==> OneActive(f)
  {
    RunFits(es);
  }

  predicate BusyElsewhere(f: Fleet, driver: nat, booking: nat) {
    exists b :: b in f.rides && b != booking && f.rides[b].driver == driver && Active(f.rides[b].status)
  }

  /** The check of the accept, made again at the moment of the write: a claim whose row can be
      written, or a start, while the driver of that row is busy with another one. */
  predicate Clash(f: Fleet, e: Event) {
    match e
    case Write(call, booking) =>
      call in f.claims && var c := f.claims[call];
      (match c.target
       case NewBooking => booking !in f.rides && BusyElsewhere(f, c.driver, booking)
       case Transfer(b) => b in f.rides && BusyElsewhere(f, c.driver, b))
    case Save(call) =>
      call in f.changes && var c := f.changes[call];
      c.action.Starting? && BusyElsewhere(f, c.row.driver, c.booking)
    case _ => false
  }

  /** After any run, whatever happened in it: the next event gives some driver a second active
      booking if and only if it clashes. */
  lemma SecondActiveExactly(es: seq<Event>, e: Event)
    ensures var f := Runs.Run(Step, NoRides, es);
      OneActive(f) ==> (OneActive(Step(f, e)) <==> !Clash(f, e))
  {
    RunFits(es);
    var f := Runs.Run(Step, NoRides, es);
    if OneActive(f) {
      ClashStep(f, e);
    }
  }

  lemma ClashStep(f: Fleet, e: Event)
    requires NonePending(f) && OneActive(f)
    ensures OneActive(Step(f, e)) <==> !Clash(f, e)
  {
    match e
    case Write(call, booking) =>
      if call in f.claims {
        var c := f.claims[call];
        RowClash(f, if c.target.Transfer? then c.target.booking else booking,
                 Ride(c.driver, if c.target.Transfer? then c.seen else Accepted, c.target.Transfer?));
      }
    case Save(call) =>
      if call in f.changes {
        var c := f.changes[call];
        RowClash(f, c.booking, c.row.(status := Result(c.action)));
      }
    case Whole(driver, target, booking) =>
      var b := if target.Transfer? then target.booking else booking;
      RowClash(f, b, Ride(driver, Seen(f, target), target.Transfer?));
    case Act(b, action) =>
      if b in f.rides {
        RowClash(f, b, f.rides[b].(status := Result(action)));
      }
    case _ =>
  }

  /** Writing one row. */
  lemma RowClash(f: Fleet, b: nat, row: Ride)
    requires OneActive(f)
    ensures OneActive(f.(rides := f.rides[b := row])) <==> !(Active(row.status) && BusyElsewhere(f, row.driver, b))
  {
    var g := f.(rides := f.rides[b := row]);
    if Active(row.status) && BusyElsewhere(f, row.driver, b) {
      var x :| x in f.rides && x != b && f.rides[x].driver == row.driver && Active(f.rides[x].status);
      assert g.rides[x] == f.rides[x] && g.rides[b] == row;
    }
  }

  predicate NeverSplit(e: Event) {
    !e.Check? && !e.ReadRow?
  }

  /** In particular when every call runs without interruption. */
  lemma WholeClaimsOneActive(es: seq<Event>)
    requires forall i :: 0 <= i < |es| ==> NeverSplit(es[i])
    ensures OneActive(Runs.Run(Step, NoRides, es))
  {
    OneActiveBooking(es);
    forall f, e | NothingSplit(f) && NeverSplit(e) ensures NothingSplit(Step(f, e)) {
    }
    Runs.RunOfKeeps(Step, NeverSplit, f => NothingSplit(f), NoRides, es);
  }

  predicate NothingSplit(f: Fleet) {
    f.claims == map[] && f.changes == map[] && f.overlaps == 0 && f.staleSaves == 0
  }

  /** For every call without interruption: a booking gets under way only from accepted or
      assigned, is completed only when under way, and is cancelled only before that; its status
      moves in no other way. */
  lemma StatusMovesExactly(f: Fleet, e: Event, b: nat)
    requires NeverSplit(e) && !e.Write? && !e.Save? && b in f.rides && !f.rides[b].status.Pending?
    ensures var before := f.rides[b].status;
      b in Step(f, e).rides && var after := Step(f, e).rides[b].status;
      after != before <==>
        || (e == Act(b, Starting) && (before.Accepted? || before.DriverAssigned?) && after.Ongoing?)
        || (e == Act(b, Completing) && before.Ongoing? && after.Completed?)
        || (e == Act(b, Cancelling) && (before.Accepted? || before.DriverAssigned?) && after.Cancelled?)
  {
  }

  /** A booking handed over once keeps its driver through every call that is not interrupted;
      and it changes hands only to a free driver, while it is active. */
  lemma HandoverOnce(f: Fleet, e: Event, b: nat)
    requires NeverSplit(e) && !e.Write? && !e.Save? && b in f.rides && !f.rides[b].status.Pending?
    ensures b in Step(f, e).rides && var r, c := f.rides[b], Step(f, e).rides[b];
      && (c.driver != r.driver ==>
            e.Whole? && e.target == Transfer(b) && c.driver == e.driver && !Busy(f, c.driver)
            && Active(r.status) && !r.handedOver && c.handedOver)
      && (r.handedOver ==> c.handedOver)
  {
  }

  /** No stored booking is ever pending, so accepting a stored booking never does anything. */
  lemma LegacyPathNeverTaken(es: seq<Event>, booking: nat, driver: nat)
    ensures var f := Runs.Run(Step, NoRides, es);
      (forall b :: b in f.rides ==> !f.rides[b].status.Pending?) && Step(f, LegacyAccept(booking, driver)) == f
  {
    RunFits(es);
  }

  /** One driver, two offers, both checks before both writes: the accept lock is per offer and
      does not see it. */
  lemma OverlappingClaimsBothWin()
    ensures var f := Runs.Run(Step, NoRides,
        [Check(1, 5, NewBooking), Check(2, 5, NewBooking), Write(1, 10), Write(2, 11)]);
      && !OneActive(f) && f.overlaps == 1 && f.staleSaves == 0
      && f.rides == map[10 := Ride(5, Accepted, false), 11 := Ride(5, Accepted, false)]
  {
    var es := [Check(1, 5, NewBooking), Check(2, 5, NewBooking), Write(1, 10), Write(2, 11)];
    var f1 := Step(NoRides, es[0]);
    assert Claiming(f1, 5) by {
      assert 1 in f1.claims;
    }
    var f2 := Step(f1, es[1]);
    assert f2.claims == map[1 := Claim(5, NewBooking, Accepted), 2 := Claim(5, NewBooking, Accepted)];
    var f3 := Step(f2, es[2]);
    var f4 := Step(f3, es[3]);
    Runs.RunTrace(Step, es, [NoRides, f1, f2, f3, f4]);
    assert f4.rides[10].driver == f4.rides[11].driver;
  }

  /** A start reads its booking, and the customer cancels it. */
  function StartOvertaken(): seq<Event> {
    [Whole(5, NewBooking, 10), ReadRow(1, 10, Starting), Act(10, Cancelling)]
  }

  lemma StartIsOvertaken()
    ensures Runs.Run(Step, NoRides, StartOvertaken()) ==
      Fleet(map[10 := Ride(5, Cancelled, false)], map[], map[1 := Change(10, Ride(5, Accepted, false), Starting)], 0, 0)
  {
    var es := StartOvertaken();
    var f1 := Step(NoRides, es[0]);
    assert f1.rides == map[10 := Ride(5, Accepted, false)];
    var f2 := Step(f1, es[1]);
    var f3 := Step(f2, es[2]);
    assert f3.rides == map[10 := Ride(5, Cancelled, false)];
    Runs.RunTrace(Step, es, [NoRides, f1, f2, f3]);
  }

  /** The driver then accepts another one, and the start is saved. */
  lemma StaleStartReactivates()
    ensures var f := Runs.Run(Step, NoRides, StartOvertaken() + [Whole(5, NewBooking, 11), Save(1)]);
      && !OneActive(f) && f.overlaps == 0 && f.staleSaves == 1
      && f.rides == map[10 := Ride(5, Ongoing, false), 11 := Ride(5, Accepted, false)]
  {
    StartIsOvertaken();
    var es := [Whole(5, NewBooking, 11), Save(1)];
    var f := Runs.Run(Step, NoRides, StartOvertaken());
    var f1 := Step(f, es[0]);
    var f2 := Step(f1, es[1]);
    Runs.RunTrace(Step, es, [f, f1, f2]);
    assert f2.rides[10].driver == f2.rides[11].driver;
    hide StartOvertaken;
    Runs.RunJoins(Step, NoRides, StartOvertaken(), es);
  }

  // ---------------------------------------------------------------------------------------
  // The booking table, whole methods
  // ---------------------------------------------------------------------------------------

  class BookingTable {
    var rides: map<nat, Ride>

    ghost function State(): Fleet
      reads this
    {
      Fleet(rides, map[], map[], 0, 0)
    }

    /** The database part of an accept: the new row gets the id the database chose. */
    method AcceptBooking(driver: nat, booking: nat) returns (ok: bool)
      requires booking !in rides
      modifies this
      ensures State() == Step(old(State()), Whole(driver, NewBooking, booking))
      ensures ok <==> !Busy(old(State()), driver)
    {
      if exists b :: b in rides && rides[b].driver == driver && Active(rides[b].status) {
        return false;
      }
      rides := rides[booking := Ride(driver, Accepted, false)];
      return true;
    }

    method AcceptHandoff(driver: nat, booking: nat) returns (ok: bool)
      modifies this
      ensures State() == Step(old(State()), Whole(driver, Transfer(booking), booking))
      ensures ok <==> MayClaim(old(State()), driver, Transfer(booking))
    {
      if booking !in rides || !Active(rides[booking].status) || rides[booking].handedOver {
        return false;
      }
      if exists b :: b in rides && rides[b].driver == driver && Active(rides[b].status) {
        return false;
      }
      rides := rides[booking := rides[booking].(driver := driver, handedOver := true)];
      return true;
    }

    method StartTrip(booking: nat) returns (ok: bool)
      modifies this
      ensures State() == Step(old(State()), Act(booking, Starting))
      ensures ok ==> booking in rides && rides[booking].status.Ongoing?
    {
      if booking !in rides || !(rides[booking].status.Accepted? || rides[booking].status.DriverAssigned?) {
        return false;
      }
      rides := rides[booking := rides[booking].(status := Ongoing)];
      return true;
    }

    method CompleteTrip(booking: nat) returns (ok: bool)
      modifies this
      ensures State() == Step(old(State()), Act(booking, Completing))
      ensures ok <==> booking in old(rides) && old(rides)[booking].status.Ongoing?
    {
      if booking !in rides || !rides[booking].status.Ongoing? {
        return false;
      }
      rides := rides[booking := rides[booking].(status := Completed)];
      return true;
    }

    method CancelBooking(booking: nat) returns (ok: bool)
      modifies this
      ensures State() == Step(old(State()), Act(booking, Cancelling))
      ensures !ok ==> rides == old(rides)
    {
      if booking !in rides || rides[booking].status.Ongoing? || rides[booking].status.Completed? {
        return false;
      }
      rides := rides[booking := rides[booking].(status := Cancelled)];
      return true;
    }
  }
}
