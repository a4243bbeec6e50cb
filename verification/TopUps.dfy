/** One wallet top-up: any number of app verifications, gateway webhooks and admin decisions
    on it, interleaved at every read and write of the database. */
module TopUps {
  import Runs

  datatype Status = Pending | Approved | Rejected

  /** Where one call stands. A gateway caller reads the row, asks the gateway, flips the
      status under a condition and then credits; an admin reads the row and then writes the
      status without a condition. */
  datatype Stage =
    | Start
    | HasRow       // gateway caller: row read, not approved then
    | Paid         // gateway caller: the gateway says the order is paid
    | Owes         // this call moved the row to approved and has yet to credit
    | SawPending   // admin about to approve
    | SawPendingReject // admin about to reject
    | Finished

  /** `credits` counts wallet credits; `firstMove` and `staleWrites` count the writes that set
      the row to approved from pending, and from anything else. */
  datatype TopUp = TopUp(
    status: Status,
    calls: map<nat, Stage>,
    balance: int,
    credits: nat,
    firstMoves: nat,
    staleWrites: nat)

  datatype Event =
    | Read(call: nat)
    | AskGateway(call: nat, paid: bool)
    | Flip(call: nat)
    | AdminRead(call: nat, approving: bool)
    | AdminApprove(call: nat)
    | AdminReject(call: nat)
    | Credit(call: nat)

  function At(t: TopUp, call: nat): Stage {
    if call in t.calls then t.calls[call] else Start
  }

  function Goes(t: TopUp, call: nat, stage: Stage): TopUp {
    t.(calls := t.calls[call := stage])
  }

  /** The single-flight write: only pending rows are touched. */
  function AfterFlip(t: TopUp, call: nat): TopUp {
    if t.status.Pending? then Goes(t, call, Owes).(status := Approved, firstMoves := t.firstMoves + 1)
    else Goes(t, call, Finished)
  }

  /** The admin's write: whatever the row is by now. */
  function AfterAdminApprove(t: TopUp, call: nat): TopUp {
    var u := Goes(t, call, Owes).(status := Approved);
    if t.status.Pending? then u.(firstMoves := t.firstMoves + 1) else u.(staleWrites := t.staleWrites + 1)
  }

  function Step(amount: int, t: TopUp, e: Event): TopUp {
    match e
    case Read(call) =>
      if At(t, call) != Start then t
      else Goes(t, call, if t.status.Approved? then Finished else HasRow)
    case AskGateway(call, paid) =>
      if At(t, call) != HasRow then t else Goes(t, call, if paid then Paid else Finished)
    case Flip(call) =>
      if At(t, call) != Paid then t else AfterFlip(t, call)
    case AdminRead(call, approving) =>
      if At(t, call) != Start then t
      else if !t.status.Pending? then Goes(t, call, Finished)
      else Goes(t, call, if approving then SawPending else SawPendingReject)
    case AdminApprove(call) =>
      if At(t, call) != SawPending then t else AfterAdminApprove(t, call)
    case AdminReject(call) =>
      if At(t, call) != SawPendingReject then t else Goes(t, call, Finished).(status := Rejected)
    case Credit(call) =>
      if At(t, call) != Owes then t
      else Goes(t, call, Finished).(balance := t.balance + amount, credits := t.credits + 1)
  }

  function Init(opening: int): TopUp {
    TopUp(Pending, map[], opening, 0, 0, 0)
  }

  /** The calls that have moved the row and have yet to credit. */
  function Owing(calls: map<nat, Stage>): set<nat> {
    set call | call in calls && calls[call].Owes?
  }

  /** Every write that approved the row is a credit, made or still owed; at most one such
      write found the row pending. */
  ghost predicate Accounted(opening: int, amount: int, t: TopUp) {
    && t.credits + |Owing(t.calls)| == t.firstMoves + t.staleWrites
    && t.firstMoves <= 1
    && (t.status.Pending? ==> t.firstMoves == 0)
    && t.balance == opening + amount * t.credits
  }

  lemma OwingAfter(calls: map<nat, Stage>, call: nat, stage: Stage)
    ensures var was := call in calls && calls[call].Owes?;
      |Owing(calls[call := stage])| ==
        |Owing(calls)| + (if stage.Owes? then 1 else 0) - (if was then 1 else 0)
  {
    assert Owing(calls[call := stage]) ==
      if stage.Owes? then Owing(calls) + {call} else Owing(calls) - {call};
  }

  lemma StepAccounted(opening: int, amount: int, t: TopUp, e: Event)
    requires Accounted(opening, amount, t)
    ensures Accounted(opening, amount, Step(amount, t, e))
  {
    var u := Step(amount, t, e);
    if u != t {
      OwingAfter(t.calls, e.call, u.calls[e.call]);
      hide Owing;
      assert u.calls == t.calls[e.call := u.calls[e.call]];
      MoneyAfter(amount, t.credits);
    }
  }

  lemma MoneyAfter(amount: int, credits: nat)
    ensures amount * (credits + 1) == amount * credits + amount
  {
  }

  /** Over every interleaving of any number of calls, the wallet has been credited once for
      each write that approved the row and whose caller has finished; a second credit needs a
      write by an admin to a row that was no longer pending. */
  lemma CreditsAccounted(opening: int, amount: int, es: seq<Event>)
    ensures var t := Runs.Run((t, e) => Step(amount, t, e), Init(opening), es);
      && t.credits + |Owing(t.calls)| == t.firstMoves + t.staleWrites
      && t.firstMoves <= 1
      && t.balance == opening + amount * t.credits
  {
    forall t, e | Accounted(opening, amount, t) ensures Accounted(opening, amount, Step(amount, t, e)) {
      StepAccounted(opening, amount, t, e);
    }
    assert Owing(map[]) == {};
    Runs.RunKeeps((t, e) => Step(amount, t, e), t => Accounted(opening, amount, t), Init(opening), es);
  }

  /** Once no call owes a credit: the wallet was credited at most once if and only if at most
      one write approved the row, whatever the row was by then; without a write by an admin
      over a row that was no longer pending, exactly as often as some call found it pending;
      and at least once when it is approved. */
  lemma CreditedAtMostOnce(opening: int, amount: int, es: seq<Event>)
    ensures var t := Runs.Run((t, e) => Step(amount, t, e), Init(opening), es);
      Owing(t.calls) == {} ==>
        && (t.credits <= 1 <==> t.firstMoves + t.staleWrites <= 1)
        && (t.staleWrites == 0 ==> t.credits == t.firstMoves <= 1)
        && (t.status.Approved? ==> t.credits >= 1)
        && (t.status.Approved? && t.staleWrites == 0 ==> t.credits == 1)
  {
    CreditsAccounted(opening, amount, es);
    forall t, e | ApprovedMoved(t) ensures ApprovedMoved(Step(amount, t, e)) {
    }
    Runs.RunKeeps((t, e) => Step(amount, t, e), ApprovedMoved, Init(opening), es);
  }

  predicate ApprovedMoved(t: TopUp) {
    t.status.Approved? ==> t.firstMoves + t.staleWrites > 0
  }

  predicate ByGateway(e: Event) {
    e.Read? || e.AskGateway? || e.Flip? || e.Credit?
  }

  /** App verifications and webhooks alone never credit twice, whether or not they finish. */
  lemma GatewayCallsCreditOnce(opening: int, amount: int, es: seq<Event>)
    requires forall i :: 0 <= i < |es| ==> ByGateway(es[i])
    ensures var t := Runs.Run((t, e) => Step(amount, t, e), Init(opening), es);
      && t.credits <= 1
      && (t.balance == opening || t.balance == opening + amount)
      && (t.status.Approved? && Owing(t.calls) == {} ==> t.credits == 1)
  {
    var step := (t, e) => Step(amount, t, e);
    var inv := t => NoAdmin(t);
    forall t, e | inv(t) && ByGateway(e) ensures inv(step(t, e)) {
    }
    Runs.RunOfKeeps(step, ByGateway, inv, Init(opening), es);
    CreditsAccounted(opening, amount, es);
    CreditedAtMostOnce(opening, amount, es);
  }

  predicate NoAdmin(t: TopUp) {
    t.staleWrites == 0 && forall call | call in t.calls :: !t.calls[call].SawPending?
  }

  /** An admin's stale approval alone is one credit: the other admin had rejected the row. */
  lemma StaleApprovalCreditsOnce(opening: int, amount: int)
    ensures var t := Runs.Run((t, e) => Step(amount, t, e), Init(opening),
        [AdminRead(1, true), AdminRead(2, false), AdminReject(2), AdminApprove(1), Credit(1)]);
      t.credits == 1 && t.staleWrites == 1 && t.firstMoves == 0 && t.status == Approved
  {
    var es := [AdminRead(1, true), AdminRead(2, false), AdminReject(2), AdminApprove(1), Credit(1)];
    var t0 := Init(opening);
    var t1 := Step(amount, t0, es[0]);
    var t2 := Step(amount, t1, es[1]);
    var t3 := Step(amount, t2, es[2]);
    var t4 := Step(amount, t3, es[3]);
    Runs.RunTrace((t, e) => Step(amount, t, e), es, [t0, t1, t2, t3, t4, Step(amount, t4, es[4])]);
  }

  /** An admin who read the row while it was pending approves it after the webhook did. */
  lemma AdminRaceCreditsTwice(opening: int, amount: int)
    ensures var t := Runs.Run((t, e) => Step(amount, t, e), Init(opening),
        [AdminRead(1, true), Read(2), AskGateway(2, true), Flip(2), Credit(2), AdminApprove(1), Credit(1)]);
      t.credits == 2 && t.balance == opening + 2 * amount && t.staleWrites == 1
  {
    var es := [AdminRead(1, true), Read(2), AskGateway(2, true), Flip(2), Credit(2), AdminApprove(1), Credit(1)];
    var t0 := Init(opening);
    var t1 := Step(amount, t0, es[0]);
    var t2 := Step(amount, t1, es[1]);
    var t3 := Step(amount, t2, es[2]);
    var t4 := Step(amount, t3, es[3]);
    var t5 := Step(amount, t4, es[4]);
    var t6 := Step(amount, t5, es[5]);
    Runs.RunTrace((t, e) => Step(amount, t, e), es, [t0, t1, t2, t3, t4, t5, t6, Step(amount, t6, es[6])]);
  }

  // ---------------------------------------------------------------------------------------
  // One call on its own
  // ---------------------------------------------------------------------------------------

  datatype Reply = NewlyCredited | AlreadyApproved | NotPaid

  /** What a call does that nobody interrupts: it moves a pending row and credits it. */
  predicate Moves(status: Status, paid: bool) {
    status.Pending? && paid
  }

  class TopUpRequest {
    var status: Status
    var balance: int
    const amount: int

    /** The whole credit routine with nothing in between. */
    method CreditTopUp(paid: bool) returns (reply: Reply)
      modifies this
      ensures status == (if Moves(old(status), paid) then Approved else old(status))
      ensures balance == (if Moves(old(status), paid) then old(balance) + amount else old(balance))
      ensures reply.NewlyCredited? <==> Moves(old(status), paid)
      ensures reply.NotPaid? <==> !old(status).Approved? && !paid
    {
      if status.Approved? {
        return AlreadyApproved;
      }
      if !paid {
        return NotPaid;
      }
      if !status.Pending? {
        return AlreadyApproved;
      }
      status := Approved;
      balance := balance + amount;
      return NewlyCredited;
    }
  }

  /** The interleaved steps, when nobody interrupts them, are the routine. */
  lemma CallAlone(amount: int, t: TopUp, call: nat, paid: bool)
    requires At(t, call).Start?
    ensures var u := Runs.Run((t, e) => Step(amount, t, e), t,
                              [Read(call), AskGateway(call, paid), Flip(call), Credit(call)]);
      && At(u, call).Finished?
      && u.status == (if Moves(t.status, paid) then Approved else t.status)
      && u.balance == (if Moves(t.status, paid) then t.balance + amount else t.balance)
      && (t.status.Approved? ==> At(Step(amount, t, Read(call)), call).Finished?)
  {
    var es := [Read(call), AskGateway(call, paid), Flip(call), Credit(call)];
    var step := (t, e) => Step(amount, t, e);
    var t1 := Step(amount, t, es[0]);
    var t2 := Step(amount, t1, es[1]);
    var t3 := Step(amount, t2, es[2]);
    Runs.RunTrace(step, es, [t, t1, t2, t3, Step(amount, t3, es[3])]);
  }

  /** An admin's decision, when nobody interrupts it: a pending row is approved and credited, or
      rejected; any other is left alone. */
  lemma AdminAlone(amount: int, t: TopUp, call: nat, approving: bool)
    requires At(t, call).Start?
    ensures var u := Runs.Run((t, e) => Step(amount, t, e), t,
                              [AdminRead(call, approving), AdminApprove(call), AdminReject(call), Credit(call)]);
      && At(u, call).Finished?
      && u.status == (if !t.status.Pending? then t.status else if approving then Approved else Rejected)
      && u.balance == (if t.status.Pending? && approving then t.balance + amount else t.balance)
  {
    var es := [AdminRead(call, approving), AdminApprove(call), AdminReject(call), Credit(call)];
    var t1 := Step(amount, t, es[0]);
    var t2 := Step(amount, t1, es[1]);
    var t3 := Step(amount, t2, es[2]);
    Runs.RunTrace((t, e) => Step(amount, t, e), es, [t, t1, t2, t3, Step(amount, t3, es[3])]);
  }
}
