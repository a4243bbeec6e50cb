/** The dispatch of one offer: its Redis keys, its queued jobs, and every method that moves
    it from driver to driver. Whole methods are atomic here; OfferAccept splits the accept. */
module OfferDispatch {
  import opened Options
  import Runs

  datatype Offer = Offer(fare: int, timedOut: bool, retryCount: nat)

  /** The keys of one offer. The vehicle type key is written and deleted together with
      `excluded` and is not shown. */
  datatype Keys = Keys(
    offer: Option<Offer>,
    holder: Option<nat>,
    excluded: Option<seq<nat>>,
    broadcast: bool,
    broadcastDrivers: Option<seq<nat>>)

  datatype Job =
    | SearchDriver(excluded: seq<nat>, attempt: int)
    | OfferTimeout(driver: nat, excluded: seq<nat>, attempt: int)
    | SearchTimeout
    | BroadcastTimeout

  /** `offered` lists the drivers the offer was emitted to, one at a time; `searches` counts
      the driver searches. */
  datatype Dispatch = Dispatch(
    keys: Keys,
    jobs: map<nat, Job>,
    nextJob: nat,
    offered: seq<nat>,
    searches: nat)

  const Gone: Keys := Keys(None, None, None, false, None)

  function Queued(d: Dispatch, job: Job): Dispatch {
    d.(jobs := d.jobs[d.nextJob := job], nextJob := d.nextJob + 1)
  }

  /** The nearest driver that has not been offered the ride. */
  function FirstEligible(near: seq<nat>, excluded: seq<nat>): (r: Option<nat>)
    ensures r.Some? ==> r.value in near && r.value !in excluded
    ensures r.Some? ==> exists i :: 0 <= i < |near| && near[i] == r.value && AllOf(near[..i], excluded)
    ensures r.None? ==> forall driver :: driver in near ==> driver in excluded
  {
    if near == [] then None
    else if near[0] !in excluded then
      assert AllOf(near[..0], excluded);
      Some(near[0])
    else
      var rest := FirstEligible(near[1..], excluded);
      assert rest.Some? ==> exists i :: 0 <= i < |near| && near[i] == rest.value && AllOf(near[..i], excluded) by {
        if rest.Some? {
          var i :| 0 <= i < |near| - 1 && near[1..][i] == rest.value && AllOf(near[1..][..i], excluded);
          assert near[..i + 1] == [near[0]] + near[1..][..i];
          assert near[i + 1] == rest.value && AllOf(near[..i + 1], excluded);
        }
      }
      rest
  }

  predicate AllOf(some: seq<nat>, drivers: seq<nat>) {
    forall driver :: driver in some ==> driver in drivers
  }

  /** Offer the ride to everybody at once. */
  function AfterFlag(d: Dispatch, wide: seq<nat>): Dispatch {
    Queued(d.(keys := d.keys.(broadcast := true, broadcastDrivers := Some(wide))), BroadcastTimeout)
  }

  function AfterBroadcast(d: Dispatch, wide: seq<nat>): Dispatch {
    if d.keys.offer.None? || wide == [] then d else AfterFlag(d, wide)
  }

  /** Offer the ride to one driver, with a job for when that driver does not answer. */
  function AfterOffering(d: Dispatch, driver: nat, excluded: seq<nat>, attempt: int): Dispatch {
    Queued(d.(keys := d.keys.(holder := Some(driver), excluded := Some(excluded + [driver])),
              offered := d.offered + [driver]),
           OfferTimeout(driver, excluded + [driver], attempt + 1))
  }

  function AfterSearch(max: nat, d: Dispatch, excluded: seq<nat>, attempt: int, near: seq<nat>, wide: seq<nat>)
    : Dispatch
  {
    var c := d.(searches := d.searches + 1);
    if c.keys.offer.None? || c.keys.offer.value.timedOut then c
    else if attempt > max then AfterBroadcast(c, wide)
    else
      var driver := FirstEligible(near, excluded);
      if driver.None? then AfterBroadcast(c, wide)
      else AfterOffering(c, driver.value, excluded, attempt)
  }

  function Withdrawn(keys: Keys): Keys {
    keys.(holder := None, excluded := None)
  }

  function AfterOfferTimeout(d: Dispatch, driver: nat, excluded: seq<nat>, attempt: int): Dispatch {
    if d.keys.offer.None? || d.keys.holder != Some(driver) then d
    else
      var c := d.(keys := Withdrawn(d.keys));
      if d.keys.offer.value.timedOut then c else Queued(c, SearchDriver(excluded, attempt))
  }

  function AfterSearchTimeout(d: Dispatch): Dispatch {
    if d.keys.offer.None? then d
    else d.(keys := Gone.(offer := Some(d.keys.offer.value.(timedOut := true))))
  }

  /** Cancelling the offer and the end of a broadcast delete every key. */
  function AfterCleanup(d: Dispatch): Dispatch {
    if d.keys.offer.None? then d else d.(keys := Gone)
  }

  function AfterReject(d: Dispatch, driver: nat): Dispatch {
    if d.keys.offer.None? || d.keys.holder != Some(driver) then d
    else
      var excluded := if d.keys.excluded.Some? then d.keys.excluded.value else [driver];
      Queued(d.(keys := Withdrawn(d.keys)), SearchDriver(excluded, |excluded| + 1))
  }

  function AfterUpdateFare(d: Dispatch, fare: int): Dispatch {
    if d.keys.offer.None? || fare <= d.keys.offer.value.fare then d
    else d.(keys := d.keys.(offer := Some(d.keys.offer.value.(fare := fare))))
  }

  function AfterRetry(max: nat, d: Dispatch, fare: int, near: seq<nat>, wide: seq<nat>): Dispatch {
    if d.keys.offer.None? then d
    else
      var offer := Offer(fare, false, d.keys.offer.value.retryCount + 1);
      var c := d.(keys := Keys(Some(offer), d.keys.holder, None, false, None));
      AfterSearch(max, Queued(c, SearchTimeout), [], 1, near, wide)
  }

  /** A new instant offer: the search timeout is queued and the first search starts. */
  function Created(max: nat, fare: int, near: seq<nat>, wide: seq<nat>): Dispatch {
    var d := Dispatch(Gone.(offer := Some(Offer(fare, false, 0))), map[0 := SearchTimeout], 1, [], 0);
    AfterSearch(max, d, [], 1, near, wide)
  }

  /** The check an accept makes under its lock: a broadcast admits everybody, otherwise only
      the present holder passes. */
  predicate AcceptPasses(keys: Keys, driver: nat) {
    keys.offer.Some? && (keys.broadcast || keys.holder == Some(driver))
  }

  function AfterAccept(d: Dispatch, driver: nat): Dispatch {
    if AcceptPasses(d.keys, driver) then d.(keys := Gone) else d
  }

  // ---------------------------------------------------------------------------------------
  // Events
  // ---------------------------------------------------------------------------------------

  datatype Event =
    | RunJob(job: nat, near: seq<nat>, wide: seq<nat>)
    | Reject(driver: nat)
    | UpdateFare(fare: int)
    | Retry(fare: int, near: seq<nat>, wide: seq<nat>)
    | Cancel
    | Accept(driver: nat)
    | LapseOffer
    | LapseHolder // holder, excluded and vehicle type share one time to live
    | LapseBroadcast
    | LapseBroadcastDrivers

  function AfterJob(max: nat, d: Dispatch, job: Job, near: seq<nat>, wide: seq<nat>): Dispatch {
    match job
    case SearchDriver(excluded, attempt) => AfterSearch(max, d, excluded, attempt, near, wide)
    case OfferTimeout(driver, excluded, attempt) => AfterOfferTimeout(d, driver, excluded, attempt)
    case SearchTimeout => AfterSearchTimeout(d)
    case BroadcastTimeout => AfterCleanup(d)
  }

  function Step(max: nat, d: Dispatch, e: Event): Dispatch {
    match e
    case RunJob(job, near, wide) =>
      if job !in d.jobs then d
      else AfterJob(max, d.(jobs := d.jobs - {job}), d.jobs[job], near, wide)
    case Reject(driver) => AfterReject(d, driver)
    case UpdateFare(fare) => AfterUpdateFare(d, fare)
    case Retry(fare, near, wide) => AfterRetry(max, d, fare, near, wide)
    case Cancel => AfterCleanup(d)
    case Accept(driver) => AfterAccept(d, driver)
    case LapseOffer => d.(keys := d.keys.(offer := None))
    case LapseHolder => d.(keys := Withdrawn(d.keys))
    case LapseBroadcast => d.(keys := d.keys.(broadcast := false))
    case LapseBroadcastDrivers => d.(keys := d.keys.(broadcastDrivers := None))
  }

  function RunFrom(max: nat, d: Dispatch, es: seq<Event>): Dispatch {
    Runs.Run((d, e) => Step(max, d, e), d, es)
  }

  // ---------------------------------------------------------------------------------------
  // A timed-out offer
  // ---------------------------------------------------------------------------------------

  predicate Quiet(keys: Keys) {
    keys.offer.Some? && keys.offer.value.timedOut ==>
      keys.holder.None? && !keys.broadcast && keys.broadcastDrivers.None?
  }

  lemma StepQuiet(max: nat, d: Dispatch, e: Event)
    requires Quiet(d.keys)
    ensures Quiet(Step(max, d, e).keys)
  {
  }

  /** Over every run, retries included: between a search timeout and the customer's next
      retry nobody holds the offer, it is not broadcast, and no driver's accept can pass. */
  lemma TimedOutOfferIsSafe(max: nat, fare: int, near: seq<nat>, wide: seq<nat>, es: seq<Event>, driver: nat)
    ensures var d := RunFrom(max, Created(max, fare, near, wide), es);
      d.keys.offer.Some? && d.keys.offer.value.timedOut ==>
        d.keys.holder.None? && !d.keys.broadcast && !AcceptPasses(d.keys, driver)
  {
    forall d: Dispatch, e | Quiet(d.keys) ensures Quiet(Step(max, d, e).keys) {
      StepQuiet(max, d, e);
    }
    Runs.RunKeeps((d, e) => Step(max, d, e), (d: Dispatch) => Quiet(d.keys), Created(max, fare, near, wide), es);
  }

  predicate NoRetry(es: seq<Event>) {
    forall i :: 0 <= i < |es| ==> !es[i].Retry?
  }

  /** The offer is marked or gone, and nobody is being offered it. */
  predicate Closed(keys: Keys) {
    (keys.offer.Some? ==> keys.offer.value.timedOut) && keys.holder.None? && !keys.broadcast
  }

  /** A search timeout that finds the offer keeps it, with its fare and retry count, marked as
      timed out; and from then on, in every continuation without a retry, nobody is offered the
      ride, no driver holds it, it is not broadcast and no accept passes. */
  lemma SearchTimeoutCloses(max: nat, fare: int, near: seq<nat>, wide: seq<nat>, es: seq<Event>,
                            job: nat, near': seq<nat>, wide': seq<nat>, more: seq<Event>, driver: nat)
    requires NoRetry(more)
    ensures var d := RunFrom(max, Created(max, fare, near, wide), es);
      job in d.jobs && d.jobs[job].SearchTimeout? && d.keys.offer.Some? ==>
        var was := d.keys.offer.value;
        var c := Step(max, d, RunJob(job, near', wide'));
        var v := RunFrom(max, c, more);
        && c.keys.offer == Some(Offer(was.fare, true, was.retryCount))
        && v.offered == d.offered && v.keys.holder.None? && !v.keys.broadcast && !AcceptPasses(v.keys, driver)
  {
    var d := RunFrom(max, Created(max, fare, near, wide), es);
    if job in d.jobs && d.jobs[job].SearchTimeout? && d.keys.offer.Some? {
      var inv := (v: Dispatch) => Closed(v.keys) && v.offered == d.offered;
      forall v: Dispatch, e: Event | inv(v) && !e.Retry? ensures inv(Step(max, v, e)) {
      }
      Runs.RunOfKeeps((d, e) => Step(max, d, e), (e: Event) => !e.Retry?, inv,
                      Step(max, d, RunJob(job, near', wide')), more);
    }
  }

  /** Cancelling, or the end of a broadcast, or an accept that passes, leaves no key of an offer
      that is there; and from then on nobody is offered the ride and no accept passes, retried
      or not. */
  lemma EndedForEver(max: nat, d: Dispatch, e: Event, more: seq<Event>, driver: nat)
    requires || e.Cancel?
             || (e.RunJob? && e.job in d.jobs && d.jobs[e.job].BroadcastTimeout?)
             || (e.Accept? && AcceptPasses(d.keys, e.driver))
    ensures var c := Step(max, d, e);
      var v := RunFrom(max, c, more);
      && (d.keys.offer.Some? ==> c.keys == Keys(None, None, None, false, None))
      && v.keys.offer.None? && v.offered == d.offered && !AcceptPasses(v.keys, driver)
  {
    var inv := (v: Dispatch) => v.keys.offer.None? && v.offered == d.offered;
    forall v: Dispatch, e: Event | inv(v) ensures inv(Step(max, v, e)) {
    }
    Runs.RunKeeps((d, e) => Step(max, d, e), inv, Step(max, d, e), more);
  }

  function Retries(es: seq<Event>): nat {
    if es == [] then 0 else Retries(es[..|es| - 1]) + (if es[|es| - 1].Retry? then 1 else 0)
  }

  /** What was asked last: the fare of the creation, of a later retry, or of a raise since. */
  function AskedFare(fare: int, es: seq<Event>): int {
    if es == [] then fare
    else
      var before := AskedFare(fare, es[..|es| - 1]);
      match es[|es| - 1]
      case Retry(again, _, _) => again
      case UpdateFare(raised) => if raised > before then raised else before
      case _ => before
  }

  /** Over every run, an offer that is still there has the fare that was asked last and the
      number of retries made. */
  lemma {:induction false} OfferRemembers(max: nat, fare: int, near: seq<nat>, wide: seq<nat>, es: seq<Event>)
    ensures var d := RunFrom(max, Created(max, fare, near, wide), es);
      d.keys.offer.Some? ==>
        d.keys.offer.value.fare == AskedFare(fare, es) && d.keys.offer.value.retryCount == Retries(es)
  {
    if es != [] {
      OfferRemembers(max, fare, near, wide, es[..|es| - 1]);
    }
  }

  /** Once the offer's own key is gone, no dispatch method brings back any key. */
  lemma NothingRevives(max: nat, d: Dispatch, e: Event)
    requires d.keys.offer.None?
    ensures var c := Step(max, d, e).keys;
      && c.offer.None?
      && (c.holder.Some? ==> c.holder == d.keys.holder)
      && (c.broadcast ==> d.keys.broadcast)
  {
  }

  // ---------------------------------------------------------------------------------------
  // No offer goes on for ever
  // ---------------------------------------------------------------------------------------

  ghost predicate Awaits(d: Dispatch, job: Job) {
    exists i :: i in d.jobs && d.jobs[i] == job
  }

  /** A live offer has a search timeout to come, and a broadcast one its end. */
  ghost predicate WillEnd(d: Dispatch) {
    && (forall i :: i in d.jobs ==> i < d.nextJob)
    && (d.keys.offer.Some? && !d.keys.offer.value.timedOut ==> Awaits(d, SearchTimeout))
    && (d.keys.offer.Some? && d.keys.broadcast ==> Awaits(d, BroadcastTimeout))
  }

  lemma AwaitsKept(d: Dispatch, c: Dispatch, job: Job)
    requires Awaits(d, job) && forall i :: i in d.jobs && d.jobs[i] == job ==> i in c.jobs && c.jobs[i] == job
    ensures Awaits(c, job)
  {
    var i :| i in d.jobs && d.jobs[i] == job;
    assert i in c.jobs && c.jobs[i] == job;
  }

  lemma QueuedWillEnd(d: Dispatch, job: Job)
    requires forall i :: i in d.jobs ==> i < d.nextJob
    ensures Awaits(Queued(d, job), job)
    ensures forall other :: Awaits(d, other) ==> Awaits(Queued(d, job), other)
  {
    var c := Queued(d, job);
    assert c.jobs[d.nextJob] == job;
    forall other | Awaits(d, other) ensures Awaits(c, other) {
      AwaitsKept(d, c, other);
    }
  }

  lemma SearchWillEnd(max: nat, d: Dispatch, excluded: seq<nat>, attempt: int, near: seq<nat>, wide: seq<nat>)
    requires WillEnd(d)
    ensures WillEnd(AfterSearch(max, d, excluded, attempt, near, wide))
  {
    var c := d.(searches := d.searches + 1);
    assert forall job :: Awaits(d, job) ==> Awaits(c, job);
    QueuedWillEnd(c.(keys := c.keys.(broadcast := true, broadcastDrivers := Some(wide))), BroadcastTimeout);
    assert forall job :: Awaits(d, job) ==>
        Awaits(c.(keys := c.keys.(broadcast := true, broadcastDrivers := Some(wide))), job);
    var driver := FirstEligible(near, excluded);
    if driver.Some? {
      var offered := c.(keys := c.keys.(holder := driver, excluded := Some(excluded + [driver.value])),
                        offered := c.offered + [driver.value]);
      assert forall job :: Awaits(d, job) ==> Awaits(offered, job);
      QueuedWillEnd(offered, OfferTimeout(driver.value, excluded + [driver.value], attempt + 1));
    }
    hide Awaits;
  }

  lemma JobWillEnd(max: nat, d: Dispatch, job: nat, near: seq<nat>, wide: seq<nat>)
    requires WillEnd(d) && job in d.jobs
    ensures WillEnd(Step(max, d, RunJob(job, near, wide)))
  {
    var c := d.(jobs := d.jobs - {job});
    forall other | Awaits(d, other) && other != d.jobs[job] ensures Awaits(c, other) {
      AwaitsKept(d, c, other);
    }
    match d.jobs[job]
    case SearchDriver(excluded, attempt) =>
      assert WillEnd(c);
      SearchWillEnd(max, c, excluded, attempt, near, wide);
    case OfferTimeout(driver, excluded, attempt) =>
      var v := c.(keys := Withdrawn(c.keys));
      assert forall other :: Awaits(c, other) ==> Awaits(v, other);
      QueuedWillEnd(v, SearchDriver(excluded, attempt));
    case SearchTimeout =>
      assert forall other :: Awaits(c, other) ==> Awaits(AfterSearchTimeout(c), other);
    case BroadcastTimeout =>
  }

  lemma KeysWillEnd(d: Dispatch, keys: Keys)
    requires WillEnd(d)
    requires keys.offer.Some? ==> d.keys.offer.Some? && (keys.offer.value.timedOut <==> d.keys.offer.value.timedOut)
    requires keys.broadcast ==> d.keys.broadcast
    ensures WillEnd(d.(keys := keys))
  {
    assert forall job :: Awaits(d, job) ==> Awaits(d.(keys := keys), job);
  }

  lemma StepWillEnd(max: nat, d: Dispatch, e: Event)
    requires WillEnd(d)
    ensures WillEnd(Step(max, d, e))
  {
    match e
    case RunJob(job, near, wide) =>
      if job in d.jobs {
        JobWillEnd(max, d, job, near, wide);
      }
    case Reject(driver) =>
      KeysWillEnd(d, Withdrawn(d.keys));
      var excluded := if d.keys.excluded.Some? then d.keys.excluded.value else [driver];
      QueuedWillEnd(d.(keys := Withdrawn(d.keys)), SearchDriver(excluded, |excluded| + 1));
    case Retry(fare, near, wide) =>
      if d.keys.offer.Some? {
        var offer := Offer(fare, false, d.keys.offer.value.retryCount + 1);
        var c := d.(keys := Keys(Some(offer), d.keys.holder, None, false, None));
        QueuedWillEnd(c, SearchTimeout);
        SearchWillEnd(max, Queued(c, SearchTimeout), [], 1, near, wide);
      }
    case _ => KeysWillEnd(d, Step(max, d, e).keys);
  }

  /** Over every run, retries included: as long as an offer is live, a search timeout is queued
      that will mark it, and as long as it is broadcast, a job that will end it. */
  lemma EveryOfferWillEnd(max: nat, fare: int, near: seq<nat>, wide: seq<nat>, es: seq<Event>)
    ensures var d := RunFrom(max, Created(max, fare, near, wide), es);
      && (d.keys.offer.Some? && !d.keys.offer.value.timedOut ==>
            exists i :: i in d.jobs && d.jobs[i] == SearchTimeout)
      && (d.keys.offer.Some? && d.keys.broadcast ==> exists i :: i in d.jobs && d.jobs[i] == BroadcastTimeout)
  {
    var start := Dispatch(Gone.(offer := Some(Offer(fare, false, 0))), map[0 := SearchTimeout], 1, [], 0);
    assert start.jobs[0] == SearchTimeout;
    SearchWillEnd(max, start, [], 1, near, wide);
    forall d, e | WillEnd(d) ensures WillEnd(Step(max, d, e)) {
      StepWillEnd(max, d, e);
    }
    Runs.RunKeeps((d, e) => Step(max, d, e), d => WillEnd(d), Created(max, fare, near, wide), es);
  }

  /** Whatever happens to a timed-out offer: short of a retry, or of its holder turning it down,
      no search is queued for it. */
  lemma TimedOutQueuesNoSearch(max: nat, d: Dispatch, e: Event, i: nat)
    requires d.keys.offer.Some? && d.keys.offer.value.timedOut && !e.Retry? && !e.Reject?
    ensures var c := Step(max, d, e); i in c.jobs && c.jobs[i].SearchDriver? ==> i in d.jobs && d.jobs[i] == c.jobs[i]
  {
  }

  /** A retry of an offer that is there asks everybody afresh: the nearest driver of all, if the
      settings allow one; else it broadcasts to whoever is in reach. Whoever held the offer
      before keeps it until then. */
  lemma RetryStartsAfresh(max: nat, d: Dispatch, fare: int, near: seq<nat>, wide: seq<nat>)
    requires d.keys.offer.Some?
    ensures var c := Step(max, d, Retry(fare, near, wide));
      && c.keys.offer == Some(Offer(fare, false, d.keys.offer.value.retryCount + 1))
      && (max >= 1 && near != [] ==>
            && c.keys == Keys(c.keys.offer, Some(near[0]), Some([near[0]]), false, None)
            && d.nextJob + 1 in c.jobs && c.jobs[d.nextJob + 1] == OfferTimeout(near[0], [near[0]], 2))
      && (!(max >= 1 && near != []) ==>
            c.keys == Keys(c.keys.offer, d.keys.holder, None, wide != [], if wide == [] then None else Some(wide)))
  {
    if near != [] {
      assert FirstEligible(near, []) == Some(near[0]) && [] + [near[0]] == [near[0]];
    }
  }

  // ---------------------------------------------------------------------------------------
  // One search round: from the creation of the offer to the first retry
  // ---------------------------------------------------------------------------------------

  predicate InRound(e: Event) {
    !e.Retry?
  }

  predicate NoDuplicates(s: seq<nat>) {
    forall i, j :: 0 <= i < j < |s| ==> s[i] != s[j]
  }

  predicate SearchQueued(d: Dispatch) {
    exists i :: i in d.jobs && d.jobs[i].SearchDriver?
  }

  /** A queued job knows how far the round had come when it was queued. */
  predicate JobFits(offered: seq<nat>, holder: Option<nat>, job: Job) {
    match job
    case SearchDriver(excluded, attempt) =>
      excluded == offered && attempt == |offered| + 1 && holder.None?
    case OfferTimeout(driver, excluded, attempt) =>
      0 < |excluded| && excluded <= offered && excluded[|excluded| - 1] == driver && attempt == |excluded| + 1
    case SearchTimeout => true
    case BroadcastTimeout => true
  }

  ghost predicate JobsFit(d: Dispatch) {
    && (forall i :: i in d.jobs ==> i < d.nextJob && JobFits(d.offered, d.keys.holder, d.jobs[i]))
    && (forall i, j :: i in d.jobs && j in d.jobs && d.jobs[i].SearchDriver? && d.jobs[j].SearchDriver? ==> i == j)
  }

  ghost predicate HolderFits(d: Dispatch) {
    d.keys.holder.Some? ==>
      && 0 < |d.offered| && d.offered[|d.offered| - 1] == d.keys.holder.value
      && d.keys.excluded == Some(d.offered)
  }

  ghost predicate RoundFits(max: nat, d: Dispatch) {
    && NoDuplicates(d.offered) && |d.offered| <= max
    && JobsFit(d) && HolderFits(d)
    && (if d.keys.holder.Some? || SearchQueued(d) then d.searches == |d.offered| else d.searches <= |d.offered| + 1)
  }

  /** A search in the course of the round: the job that asked for it is no longer queued. */
  lemma SearchFits(max: nat, d: Dispatch, near: seq<nat>, wide: seq<nat>)
    requires NoDuplicates(d.offered) && |d.offered| <= max && JobsFit(d)
    requires d.keys.holder.None? && !SearchQueued(d) && d.searches == |d.offered|
    ensures RoundFits(max, AfterSearch(max, d, d.offered, |d.offered| + 1, near, wide))
  {
  }

  lemma JobRemoved(max: nat, d: Dispatch, job: nat)
    requires RoundFits(max, d) && job in d.jobs
    ensures var c := d.(jobs := d.jobs - {job});
      && JobsFit(c) && HolderFits(c)
      && (d.jobs[job].SearchDriver? ==> !SearchQueued(c))
      && (!d.jobs[job].SearchDriver? ==> RoundFits(max, c))
  {
  }

  /** Taking the offer from its holder and queueing the next search. */
  lemma NextSearchFits(max: nat, d: Dispatch)
    requires RoundFits(max, d) && d.keys.holder.Some?
    ensures RoundFits(max, Queued(d.(keys := Withdrawn(d.keys)), SearchDriver(d.offered, |d.offered| + 1)))
    ensures RoundFits(max, d.(keys := Withdrawn(d.keys)))
  {
  }

  /** The holder's own timeout job is the newest one. */
  lemma HolderTimeoutIsNewest(d: Dispatch, driver: nat, excluded: seq<nat>, attempt: int)
    requires NoDuplicates(d.offered) && HolderFits(d)
    requires JobFits(d.offered, d.keys.holder, OfferTimeout(driver, excluded, attempt))
    ensures d.keys.holder == Some(driver) ==> excluded == d.offered && attempt == |d.offered| + 1
  {
  }

  lemma KeysFit(max: nat, d: Dispatch, keys: Keys)
    requires RoundFits(max, d)
    requires (keys.holder == d.keys.holder && keys.excluded == d.keys.excluded) || keys.holder.None?
    ensures RoundFits(max, d.(keys := keys))
  {
  }

  lemma StepFits(max: nat, d: Dispatch, e: Event)
    requires RoundFits(max, d) && InRound(e)
    ensures RoundFits(max, Step(max, d, e))
  {
    match e
    case RunJob(job, near, wide) =>
      if job in d.jobs {
        RunJobFits(max, d, job, near, wide);
      }
    case Reject(driver) =>
      if d.keys.offer.Some? && d.keys.holder == Some(driver) {
        NextSearchFits(max, d);
      }
    case _ => KeysFit(max, d, Step(max, d, e).keys);
  }

  lemma RunJobFits(max: nat, d: Dispatch, job: nat, near: seq<nat>, wide: seq<nat>)
    requires RoundFits(max, d) && job in d.jobs
    ensures RoundFits(max, Step(max, d, RunJob(job, near, wide)))
  {
    var c := d.(jobs := d.jobs - {job});
    JobRemoved(max, d, job);
    assert JobFits(d.offered, d.keys.holder, d.jobs[job]);
    match d.jobs[job]
    case SearchDriver(excluded, attempt) =>
      assert SearchQueued(d);
      SearchFits(max, c, near, wide);
    case OfferTimeout(driver, excluded, attempt) =>
      HolderTimeoutIsNewest(c, driver, excluded, attempt);
      if c.keys.holder == Some(driver) {
        NextSearchFits(max, c);
      }
    case SearchTimeout => KeysFit(max, c, AfterSearchTimeout(c).keys);
    case BroadcastTimeout => KeysFit(max, c, AfterCleanup(c).keys);
  }

  lemma RoundAlwaysFits(max: nat, fare: int, near: seq<nat>, wide: seq<nat>, es: seq<Event>)
    requires forall i :: 0 <= i < |es| ==> InRound(es[i])
    ensures RoundFits(max, RunFrom(max, Created(max, fare, near, wide), es))
  {
    var start := Dispatch(Gone.(offer := Some(Offer(fare, false, 0))), map[0 := SearchTimeout], 1, [], 0);
    SearchFits(max, start, near, wide);
    forall d, e | RoundFits(max, d) && InRound(e) ensures RoundFits(max, Step(max, d, e)) {
      StepFits(max, d, e);
    }
    Runs.RunOfKeeps((d, e) => Step(max, d, e), InRound, d => RoundFits(max, d), Created(max, fare, near, wide), es);
  }

  /** Within a round: nobody is offered the ride twice; at most `max` drivers are offered it;
      at most one search is queued, its attempt number is one more than the number of drivers
      it excludes, and those are exactly the drivers offered so far; and there are at most
      `max + 1` searches, so the round cannot go on for ever. */
  lemma RoundIsBounded(max: nat, fare: int, near: seq<nat>, wide: seq<nat>, es: seq<Event>)
    requires forall i :: 0 <= i < |es| ==> InRound(es[i])
    ensures var d := RunFrom(max, Created(max, fare, near, wide), es);
      && NoDuplicates(d.offered) && |d.offered| <= max && d.searches <= max + 1
      && (forall i :: i in d.jobs ==> JobFits(d.offered, d.keys.holder, d.jobs[i]))
      && (forall i, j :: i in d.jobs && j in d.jobs && d.jobs[i].SearchDriver? && d.jobs[j].SearchDriver? ==> i == j)
  {
    RoundAlwaysFits(max, fare, near, wide, es);
  }

  /** Nobody nearer is left to ask. */
  predicate Nearest(near: seq<nat>, offered: seq<nat>, driver: nat) {
    driver !in offered && exists i :: 0 <= i < |near| && near[i] == driver && AllOf(near[..i], offered)
  }

  /** A queued search on a live offer uses up one of the remaining attempts, on the nearest
      driver not asked before, or ends the sequential search; with none remaining it broadcasts,
      if somebody is in reach. */
  lemma SearchMakesProgress(max: nat, fare: int, near: seq<nat>, wide: seq<nat>, es: seq<Event>,
                            job: nat, near': seq<nat>, wide': seq<nat>)
    requires forall i :: 0 <= i < |es| ==> InRound(es[i])
    ensures var d := RunFrom(max, Created(max, fare, near, wide), es);
      job in d.jobs && d.jobs[job].SearchDriver? && d.keys.offer.Some? && !d.keys.offer.value.timedOut ==>
        var c := Step(max, d, RunJob(job, near', wide'));
        if |d.offered| < max && exists driver :: driver in near' && driver !in d.offered then
          && max - |c.offered| == max - |d.offered| - 1
          && c.keys.holder.Some? && Nearest(near', d.offered, c.keys.holder.value)
        else
          && c.offered == d.offered && !SearchQueued(c) && c.keys.holder.None?
          && (wide' != [] ==> c.keys.broadcast && c.keys.broadcastDrivers == Some(wide'))
          && (wide' == [] ==> c.keys == d.keys)
  {
    RoundAlwaysFits(max, fare, near, wide, es);
    var d := RunFrom(max, Created(max, fare, near, wide), es);
    if job in d.jobs && d.jobs[job].SearchDriver? {
      assert JobFits(d.offered, d.keys.holder, d.jobs[job]);
      JobRemoved(max, d, job);
      var c := Step(max, d, RunJob(job, near', wide'));
      assert forall i :: i in c.jobs && c.jobs[i].SearchDriver? ==> i in (d.jobs - {job});
    }
  }

  /** In a round, only the driver who holds the offer can turn it down; then the next search is
      queued, with everybody asked so far excluded. */
  lemma OnlyHolderRejects(max: nat, fare: int, near: seq<nat>, wide: seq<nat>, es: seq<Event>, driver: nat)
    requires forall i :: 0 <= i < |es| ==> InRound(es[i])
    ensures var d := RunFrom(max, Created(max, fare, near, wide), es);
      var c := Step(max, d, Reject(driver));
      if d.keys.offer.Some? && d.keys.holder == Some(driver) then
        && c.keys.holder.None? && c.keys.excluded.None? && c.keys.offer == d.keys.offer
        && c.jobs == d.jobs[d.nextJob := SearchDriver(d.offered, |d.offered| + 1)] && driver in d.offered
      else c == d
  {
    RoundAlwaysFits(max, fare, near, wide, es);
  }

  /** The holder's own timeout is among the queued jobs. */
  ghost predicate TimeoutQueued(d: Dispatch) {
    d.keys.offer.Some? && d.keys.holder.Some? ==>
      exists i :: i in d.jobs && d.jobs[i] == OfferTimeout(d.keys.holder.value, d.offered, |d.offered| + 1)
  }

  lemma StepTimeoutQueued(max: nat, d: Dispatch, e: Event)
    requires RoundFits(max, d) && TimeoutQueued(d) && InRound(e)
    ensures TimeoutQueued(Step(max, d, e))
  {
    var c := Step(max, d, e);
    if c.keys.offer.Some? && c.keys.holder.Some? {
      if c.keys.holder == d.keys.holder && c.offered == d.offered {
        var i :| i in d.jobs && d.jobs[i] == OfferTimeout(d.keys.holder.value, d.offered, |d.offered| + 1);
        assert i in c.jobs && c.jobs[i] == d.jobs[i];
      } else {
        assert c.jobs[d.nextJob] == OfferTimeout(c.keys.holder.value, c.offered, |c.offered| + 1) by {
          assert JobFits(d.offered, d.keys.holder, d.jobs[e.job]);
        }
      }
    }
  }

  lemma RoundTimeoutQueued(max: nat, fare: int, near: seq<nat>, wide: seq<nat>, es: seq<Event>)
    requires forall i :: 0 <= i < |es| ==> InRound(es[i])
    ensures var d := RunFrom(max, Created(max, fare, near, wide), es); RoundFits(max, d) && TimeoutQueued(d)
  {
    var start := Created(max, fare, near, wide);
    RoundAlwaysFits(max, fare, near, wide, []);
    assert RunFrom(max, start, []) == start;
    assert start.keys.holder.Some? ==> start.jobs[1] == OfferTimeout(start.keys.holder.value, start.offered, 2);
    forall d, e | RoundFits(max, d) && TimeoutQueued(d) && InRound(e)
      ensures RoundFits(max, Step(max, d, e)) && TimeoutQueued(Step(max, d, e))
    {
      StepFits(max, d, e);
      StepTimeoutQueued(max, d, e);
    }
    Runs.RunOfKeeps((d, e) => Step(max, d, e), InRound, d => RoundFits(max, d) && TimeoutQueued(d), start, es);
  }

  predicate Live(keys: Keys) {
    keys.offer.Some? && !keys.offer.value.timedOut
  }

  /** The jobs of the queue are run, one after the other, in some order; `near(i)` are the
      drivers around at the i-th of them, and `wide` those in reach of a broadcast. */
  predicate OnlyJobs(more: seq<Event>, near: nat -> seq<nat>, first: nat, wide: seq<nat>) {
    forall i :: 0 <= i < |more| ==> more[i].RunJob? && more[i].near == near(first + i) && more[i].wide == wide
  }

  function Remaining(max: nat, d: Dispatch): int {
    max - |d.offered|
  }

  /** One job brings a live round further: the holder's timeout queues the next search, and a
      search offers the ride to a new driver or broadcasts it. */
  lemma NextJob(max: nat, d: Dispatch, near: seq<nat>, wide: seq<nat>) returns (job: nat)
    requires RoundFits(max, d) && TimeoutQueued(d) && Live(d.keys) && wide != []
    requires d.keys.holder.Some? || SearchQueued(d)
    ensures var c := Step(max, d, RunJob(job, near, wide));
      || c.keys.broadcast
      || (Live(c.keys) && d.keys.holder.Some? && c.keys.holder.None? && SearchQueued(c) && c.offered == d.offered)
      || (Live(c.keys) && d.keys.holder.None? && c.keys.holder.Some? && |c.offered| == |d.offered| + 1)
  {
    if d.keys.holder.Some? {
      job :| job in d.jobs && d.jobs[job] == OfferTimeout(d.keys.holder.value, d.offered, |d.offered| + 1);
      var c := Step(max, d, RunJob(job, near, wide));
      assert c.jobs[d.nextJob].SearchDriver?;
    } else {
      job :| job in d.jobs && d.jobs[job].SearchDriver?;
      assert JobFits(d.offered, d.keys.holder, d.jobs[job]);
    }
  }

  lemma FirstThen(max: nat, d: Dispatch, e: Event, rest: seq<Event>)
    ensures RunFrom(max, d, [e] + rest) == RunFrom(max, Step(max, d, e), rest)
  {
    Runs.RunTrace((d, e) => Step(max, d, e), [e], [d, Step(max, d, e)]);
    Runs.RunJoins((d, e) => Step(max, d, e), d, [e], rest);
  }

  lemma JobThenJobs(e: Event, rest: seq<Event>, near: nat -> seq<nat>, first: nat, wide: seq<nat>)
    requires e.RunJob? && e.near == near(first) && e.wide == wide && OnlyJobs(rest, near, first + 1, wide)
    ensures OnlyJobs([e] + rest, near, first, wide)
  {
    var all := [e] + rest;
    forall i | 0 <= i < |all| ensures all[i].RunJob? && all[i].near == near(first + i) && all[i].wide == wide {
      if i > 0 {
        assert all[i] == rest[i - 1] && rest[i - 1].near == near(first + 1 + (i - 1));
      }
    }
  }

  lemma {:induction false} ReachesBroadcast(max: nat, d: Dispatch, near: nat -> seq<nat>, first: nat, wide: seq<nat>)
      returns (more: seq<Event>)
    requires RoundFits(max, d) && TimeoutQueued(d) && Live(d.keys) && wide != []
    requires d.keys.holder.Some? || SearchQueued(d)
    ensures OnlyJobs(more, near, first, wide)
    ensures |more| <= 2 * Remaining(max, d) + (if d.keys.holder.Some? then 2 else 1)
    ensures RunFrom(max, d, more).keys.broadcast
    decreases Remaining(max, d), d.keys.holder.Some?
  {
    hide RoundFits, TimeoutQueued, SearchQueued, Step, OnlyJobs, RunFrom;
    var job := NextJob(max, d, near(first), wide);
    var e := RunJob(job, near(first), wide);
    var c := Step(max, d, e);
    StepFits(max, d, e);
    StepTimeoutQueued(max, d, e);
    OfferedBound(max, d);
    OfferedBound(max, c);
    var rest: seq<Event> := [];
    if c.keys.broadcast {
      NoJobs(max, c, near, first + 1, wide);
    } else {
      rest := ReachesBroadcast(max, c, near, first + 1, wide);
    }
    more := [e] + rest;
    FirstThen(max, d, e, rest);
    JobThenJobs(e, rest, near, first, wide);
  }

  lemma NoJobs(max: nat, d: Dispatch, near: nat -> seq<nat>, first: nat, wide: seq<nat>)
    ensures OnlyJobs([], near, first, wide) && RunFrom(max, d, []) == d
  {
  }

  lemma OfferedBound(max: nat, d: Dispatch)
    requires RoundFits(max, d)
    ensures |d.offered| <= max
  {
  }

  ghost predicate BroadcastsWithin(max: nat, d: Dispatch, near: nat -> seq<nat>, wide: seq<nat>, steps: nat) {
    exists more: seq<Event> ::
      OnlyJobs(more, near, 0, wide) && |more| <= steps && RunFrom(max, d, more).keys.broadcast
  }

  /** With nobody holding the offer and no search queued, the queue never raises the flag. */
  lemma StalledForEver(max: nat, d: Dispatch, near: nat -> seq<nat>, wide: seq<nat>, more: seq<Event>)
    requires d.keys.holder.None? && !SearchQueued(d) && !d.keys.broadcast && OnlyJobs(more, near, 0, wide)
    ensures !RunFrom(max, d, more).keys.broadcast
  {
    var inv := (c: Dispatch) => c.keys.holder.None? && !SearchQueued(c) && !c.keys.broadcast;
    forall c: Dispatch, e: Event | inv(c) && e.RunJob? ensures inv(Step(max, c, e)) {
      var v := Step(max, c, e);
      assert forall i :: i in v.jobs ==> i in c.jobs && v.jobs[i] == c.jobs[i];
    }
    Runs.RunOfKeeps((d, e) => Step(max, d, e), (e: Event) => e.RunJob?, inv, d, more);
  }

  /** The round ends in a broadcast. After any run within the round, and whoever is near at
      each later search: a live offer is broadcast after at most two queued jobs for every
      remaining attempt and two more, as long as somebody is in reach of the broadcast, if and
      only if it is held, or a search is queued, or it is broadcast already; and otherwise no
      number of jobs broadcasts it. */
  lemma RoundReachesBroadcast(max: nat, fare: int, near: seq<nat>, wide: seq<nat>, es: seq<Event>,
                              near': nat -> seq<nat>, wide': seq<nat>)
    requires forall i :: 0 <= i < |es| ==> InRound(es[i])
    requires wide' != []
    ensures var d := RunFrom(max, Created(max, fare, near, wide), es);
      var going := d.keys.holder.Some? || SearchQueued(d) || d.keys.broadcast;
      Live(d.keys) ==>
        && Remaining(max, d) >= 0
        && (BroadcastsWithin(max, d, near', wide', 2 * Remaining(max, d) + 2) <==> going)
        && (!going ==> forall steps :: !BroadcastsWithin(max, d, near', wide', steps))
  {
    RoundTimeoutQueued(max, fare, near, wide, es);
    var d := RunFrom(max, Created(max, fare, near, wide), es);
    OfferedBound(max, d);
    hide Step, RoundFits;
    if Live(d.keys) {
      if d.keys.broadcast {
        NoJobs(max, d, near', 0, wide');
      } else if d.keys.holder.Some? || SearchQueued(d) {
        var more := ReachesBroadcast(max, d, near', 0, wide');
      } else {
        forall more: seq<Event> | OnlyJobs(more, near', 0, wide') ensures !RunFrom(max, d, more).keys.broadcast {
          StalledForEver(max, d, near', wide', more);
        }
      }
    }
  }

  /** An offer_timeout job of an earlier holder is stale: it changes no key and queues nothing. */
  lemma StaleTimeoutDoesNothing(max: nat, fare: int, near: seq<nat>, wide: seq<nat>, es: seq<Event>,
                                job: nat, near': seq<nat>, wide': seq<nat>)
    requires forall i :: 0 <= i < |es| ==> InRound(es[i])
    ensures var d := RunFrom(max, Created(max, fare, near, wide), es);
      job in d.jobs && d.jobs[job].OfferTimeout? && d.jobs[job].excluded != d.offered ==>
        Step(max, d, RunJob(job, near', wide')) == d.(jobs := d.jobs - {job})
  {
    RoundAlwaysFits(max, fare, near, wide, es);
    var d := RunFrom(max, Created(max, fare, near, wide), es);
    if job in d.jobs && d.jobs[job].OfferTimeout? {
      HolderTimeoutIsNewest(d, d.jobs[job].driver, d.jobs[job].excluded, d.jobs[job].attempt);
    }
  }

  // ---------------------------------------------------------------------------------------
  // The service
  // ---------------------------------------------------------------------------------------

  class Dispatcher {
    var offer: Option<Offer>
    var holder: Option<nat>
    var excluded: Option<seq<nat>>
    var broadcast: bool
    var broadcastDrivers: Option<seq<nat>>
    var jobs: map<nat, Job>
    var nextJob: nat
    var offered: seq<nat>
    ghost var searches: nat
    const maxAttempts: nat

    ghost function State(): Dispatch
      reads this
    {
      Dispatch(Keys(offer, holder, excluded, broadcast, broadcastDrivers), jobs, nextJob, offered, searches)
    }

    /** A new instant offer. */
    constructor (max: nat, fare: int, near: seq<nat>, wide: seq<nat>)
      ensures maxAttempts == max && State() == Created(max, fare, near, wide)
    {
      maxAttempts := max;
      offer, holder, excluded := Some(Offer(fare, false, 0)), None, None;
      broadcast, broadcastDrivers := false, None;
      jobs, nextJob, offered, searches := map[], 0, [], 0;
      new;
      AddJob(SearchTimeout);
      ProcessDriverSearch([], 1, near, wide);
    }

    method AddJob(job: Job)
      modifies this
      ensures State() == Queued(old(State()), job)
    {
      jobs := jobs[nextJob := job];
      nextJob := nextJob + 1;
    }

    method CleanupOffer()
      requires offer.Some?
      modifies this
      ensures State() == AfterCleanup(old(State()))
    {
      offer := None;
      holder := None;
      excluded := None;
      broadcast := false;
      broadcastDrivers := None;
    }

    method BroadcastBookingToNearby(wide: seq<nat>)
      modifies this
      ensures State() == AfterBroadcast(old(State()), wide)
    {
      if offer.None? || wide == [] {
        return;
      }
      broadcast := true;
      broadcastDrivers := Some(wide);
      AddJob(BroadcastTimeout);
    }

    method ProcessDriverSearch(excludedIds: seq<nat>, attempt: int, near: seq<nat>, wide: seq<nat>)
      modifies this
      ensures State() == AfterSearch(maxAttempts, old(State()), excludedIds, attempt, near, wide)
    {
      searches := searches + 1;
      if offer.None? || offer.value.timedOut {
        return;
      }
      if attempt > maxAttempts {
        BroadcastBookingToNearby(wide);
        return;
      }
      var nearest := FirstEligible(near, excludedIds);
      if nearest.None? {
        BroadcastBookingToNearby(wide);
        return;
      }
      var newExcluded := excludedIds + [nearest.value];
      holder := nearest;
      excluded := Some(newExcluded);
      offered := offered + [nearest.value];
      AddJob(OfferTimeout(nearest.value, newExcluded, attempt + 1));
    }

    method HandleOfferTimeout(driver: nat, excludedIds: seq<nat>, attempt: int)
      modifies this
      ensures State() == AfterOfferTimeout(old(State()), driver, excludedIds, attempt)
    {
      if offer.None? {
        return;
      }
      if holder == Some(driver) {
        holder := None;
        excluded := None;
        if offer.value.timedOut {
          return;
        }
        AddJob(SearchDriver(excludedIds, attempt));
      }
    }

    method HandleSearchTimeout()
      modifies this
      ensures State() == AfterSearchTimeout(old(State()))
    {
      if offer.None? {
        return;
      }
      holder := None;
      excluded := None;
      broadcast := false;
      broadcastDrivers := None;
      offer := Some(offer.value.(timedOut := true));
    }

    method HandleBroadcastTimeout()
      modifies this
      ensures State() == AfterCleanup(old(State()))
    {
      if offer.Some? {
        CleanupOffer();
      }
    }

    method CancelOffer()
      modifies this
      ensures State() == AfterCleanup(old(State()))
    {
      if offer.Some? {
        CleanupOffer();
      }
    }

    method RejectBooking(driver: nat)
      modifies this
      ensures State() == AfterReject(old(State()), driver)
    {
      if offer.None? || holder != Some(driver) {
        return;
      }
      var excludedIds := if excluded.Some? then excluded.value else [driver];
      holder := None;
      excluded := None;
      AddJob(SearchDriver(excludedIds, |excludedIds| + 1));
    }

    method UpdateOfferFare(fare: int) returns (ok: bool)
      modifies this
      ensures State() == AfterUpdateFare(old(State()), fare)
      ensures ok <==> old(offer).Some? && fare > old(offer).value.fare
    {
      if offer.None? || fare <= offer.value.fare {
        return false;
      }
      offer := Some(offer.value.(fare := fare));
      return true;
    }

    method RetrySearch(fare: int, near: seq<nat>, wide: seq<nat>)
      modifies this
      ensures State() == AfterRetry(maxAttempts, old(State()), fare, near, wide)
    {
      if offer.None? {
        return;
      }
      offer := Some(Offer(fare, false, offer.value.retryCount + 1));
      excluded := None;
      broadcast := false;
      broadcastDrivers := None;
      AddJob(SearchTimeout);
      ProcessDriverSearch([], 1, near, wide);
    }
  }
}
