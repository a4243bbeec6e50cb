/** One phone number's login code: sending it, and every sequence of verifications, clock
    ticks and key expiries until the next one is sent. */
module OtpService {
  import opened Options
  import Runs

  datatype Record = Record(otp: string, attempts: nat, expiresAt: int)

  datatype Keys = Keys(record: Option<Record>, cooldown: bool)

  /** The answers of a verification: true, false, or one of the three refusals. */
  datatype Answer = Right | Wrong | NotFound | Expired | TooMany

  datatype Config = Config(maxAttempts: int, expiryMs: int, isDev: bool)

  datatype SendReply = Sent | CoolingDown | NotDelivered

  function AfterSend(c: Config, k: Keys, otp: string, now: int, delivered: bool): (Keys, SendReply) {
    if k.cooldown then (k, CoolingDown)
    else if c.isDev || delivered then (Keys(Some(Record(otp, 0, now + c.expiryMs)), true), Sent)
    else (Keys(None, false), NotDelivered)
  }

  /** What a verification that has read `read` answers, and what it leaves stored. */
  function AfterAnswer(c: Config, k: Keys, read: Option<Record>, otp: string, now: int): (Keys, Answer) {
    if c.isDev && otp == "1234" then (k, Right)
    else if read.None? then (k, NotFound)
    else
      var r := read.value;
      if now > r.expiresAt then (k.(record := None), Expired)
      else if r.attempts >= c.maxAttempts then (k.(record := None), TooMany)
      else if r.otp != otp then (k.(record := Some(r.(attempts := r.attempts + 1))), Wrong)
      else (Keys(None, false), Right)
  }

  function AfterVerify(c: Config, k: Keys, otp: string, now: int): (Keys, Answer) {
    AfterAnswer(c, k, k.record, otp, now)
  }

  /** The keys, the clock, and the answers given so far with the time of each. `inHand` are the
      verifications between reading the record and answering; `stale` counts the answers given
      when the record was no longer as it was read. */
  datatype World = World(
    keys: Keys,
    now: int,
    answers: seq<(Answer, int)>,
    inHand: map<nat, Option<Record>>,
    stale: nat)

  datatype Event =
    | Verify(otp: string) // read and answer with nothing in between
    | Reads(call: nat)
    | Answers(call: nat, otp: string)
    | Tick(ms: nat)
    | RecordLapses
    | CooldownLapses

  function Answered(c: Config, w: World, read: Option<Record>, otp: string): World {
    var (keys, answer) := AfterAnswer(c, w.keys, read, otp, w.now);
    w.(keys := keys, answers := w.answers + [(answer, w.now)],
       stale := if read == w.keys.record then w.stale else w.stale + 1)
  }

  function Step(c: Config, w: World, e: Event): World {
    match e
    case Verify(otp) => Answered(c, w, w.keys.record, otp)
    case Reads(call) =>
      if call in w.inHand then w else w.(inHand := w.inHand[call := w.keys.record])
    case Answers(call, otp) =>
      if call !in w.inHand then w else Answered(c, w.(inHand := w.inHand - {call}), w.inHand[call], otp)
    case Tick(ms) => w.(now := w.now + ms)
    case RecordLapses => w.(keys := w.keys.(record := None))
    case CooldownLapses => w.(keys := w.keys.(cooldown := false))
  }

  function RunFrom(c: Config, w: World, es: seq<Event>): World {
    Runs.Run((w, e) => Step(c, w, e), w, es)
  }

  /** A code just sent. */
  function Start(c: Config, k: Keys, otp: string, sent: int): World {
    World(AfterSend(c, k, otp, sent, true).0, sent, [], map[], 0)
  }

  function Count(answers: seq<(Answer, int)>, a: Answer): nat {
    if answers == [] then 0
    else Count(answers[..|answers| - 1], a) + (if answers[|answers| - 1].0 == a then 1 else 0)
  }

  lemma CountAppend(answers: seq<(Answer, int)>, x: (Answer, int), a: Answer)
    ensures Count(answers + [x], a) == Count(answers, a) + (if x.0 == a then 1 else 0)
  {
  }

  function Allowed(c: Config): nat {
    if c.maxAttempts < 0 then 0 else c.maxAttempts
  }

  // ---------------------------------------------------------------------------------------
  // Between two codes
  // ---------------------------------------------------------------------------------------

  /** A record, stored or read, is of the code that was sent. */
  predicate RecordFits(c: Config, otp: string, expiresAt: int, record: Option<Record>) {
    record.Some? ==>
      record.value.otp == otp && record.value.expiresAt == expiresAt && record.value.attempts <= Allowed(c)
  }

  predicate InTime(answers: seq<(Answer, int)>, expiresAt: int) {
    forall i :: 0 <= i < |answers| && answers[i].0.Right? ==> answers[i].1 <= expiresAt
  }

  predicate RecordsFit(c: Config, otp: string, expiresAt: int, w: World) {
    && RecordFits(c, otp, expiresAt, w.keys.record)
    && (forall call :: call in w.inHand ==> RecordFits(c, otp, expiresAt, w.inHand[call]))
    && InTime(w.answers, expiresAt)
  }

  /** The stored attempts are the wrong answers given; a right answer ends the record. */
  predicate Counted(c: Config, w: World) {
    && Count(w.answers, Wrong) <= Allowed(c)
    && Count(w.answers, Right) <= 1
    && (w.keys.record.Some? ==> w.keys.record.value.attempts == Count(w.answers, Wrong) && Count(w.answers, Right) == 0)
  }

  predicate Fits(c: Config, otp: string, expiresAt: int, w: World) {
    RecordsFit(c, otp, expiresAt, w) && (w.stale == 0 ==> Counted(c, w))
  }

  lemma AnsweredRecordsFit(c: Config, otp: string, expiresAt: int, w: World, read: Option<Record>, tried: string)
    requires RecordsFit(c, otp, expiresAt, w) && RecordFits(c, otp, expiresAt, read) && !c.isDev
    ensures RecordsFit(c, otp, expiresAt, Answered(c, w, read, tried))
  {
  }

  lemma AnsweredCounted(c: Config, w: World, tried: string)
    requires Counted(c, w) && !c.isDev
    ensures Counted(c, Answered(c, w, w.keys.record, tried))
  {
    var answer := AfterVerify(c, w.keys, tried, w.now).1;
    CountAppend(w.answers, (answer, w.now), Wrong);
    CountAppend(w.answers, (answer, w.now), Right);
    hide Count;
  }

  lemma StepFits(c: Config, otp: string, expiresAt: int, w: World, e: Event)
    requires Fits(c, otp, expiresAt, w) && !c.isDev
    ensures Fits(c, otp, expiresAt, Step(c, w, e))
  {
    hide Count, InTime, RecordFits;
    match e
    case Verify(tried) =>
      AnsweredRecordsFit(c, otp, expiresAt, w, w.keys.record, tried);
      if w.stale == 0 {
        AnsweredCounted(c, w, tried);
      }
    case Answers(call, tried) =>
      if call in w.inHand {
        var v := w.(inHand := w.inHand - {call});
        AnsweredRecordsFit(c, otp, expiresAt, v, w.inHand[call], tried);
        if Step(c, w, e).stale == 0 {
          AnsweredCounted(c, v, tried);
        }
      }
    case RecordLapses => NoRecordFits(c, otp, expiresAt);
    case _ =>
  }

  lemma NoRecordFits(c: Config, otp: string, expiresAt: int)
    ensures RecordFits(c, otp, expiresAt, None)
  {
  }

  lemma RunFits(c: Config, k: Keys, otp: string, sent: int, es: seq<Event>)
    requires !c.isDev && AfterSend(c, k, otp, sent, true).1.Sent?
    ensures Fits(c, otp, sent + c.expiryMs, RunFrom(c, Start(c, k, otp, sent), es))
  {
    var exp := sent + c.expiryMs;
    forall w, e | Fits(c, otp, exp, w) ensures Fits(c, otp, exp, Step(c, w, e)) {
      StepFits(c, otp, exp, w, e);
    }
    Runs.RunKeeps((w, e) => Step(c, w, e), w => Fits(c, otp, exp, w), Start(c, k, otp, sent), es);
  }

  /** Between two codes, outside development mode, however verifications overlap: no right
      answer after the code expired, and never more attempts on record than allowed; and at
      most the allowed number of wrong answers and at most one right answer, as long as no
      answer is given from a record that has changed since it was read. */
  lemma OneCodeIsBounded(c: Config, k: Keys, otp: string, sent: int, es: seq<Event>)
    requires !c.isDev && AfterSend(c, k, otp, sent, true).1.Sent?
    ensures var w := RunFrom(c, Start(c, k, otp, sent), es);
      && (forall i :: 0 <= i < |w.answers| && w.answers[i].0.Right? ==> w.answers[i].1 <= sent + c.expiryMs)
      && (w.keys.record.Some? ==> w.keys.record.value.attempts <= Allowed(c))
      && (w.stale == 0 ==> Count(w.answers, Wrong) <= Allowed(c) && Count(w.answers, Right) <= 1)
  {
    RunFits(c, k, otp, sent, es);
  }

  /** In particular when verifications do not overlap. */
  lemma WholeVerifiesBounded(c: Config, k: Keys, otp: string, sent: int, es: seq<Event>)
    requires !c.isDev && AfterSend(c, k, otp, sent, true).1.Sent?
    requires forall i :: 0 <= i < |es| ==> !es[i].Reads?
    ensures var w := RunFrom(c, Start(c, k, otp, sent), es);
      Count(w.answers, Wrong) <= Allowed(c) && Count(w.answers, Right) <= 1
  {
    OneCodeIsBounded(c, k, otp, sent, es);
    var inv := (w: World) => w.inHand == map[] && w.stale == 0;
    forall w: World, e: Event | inv(w) && !e.Reads? ensures inv(Step(c, w, e)) {
    }
    Runs.RunOfKeeps((w, e) => Step(c, w, e), (e: Event) => !e.Reads?, inv, Start(c, k, otp, sent), es);
  }

  /** After any such run, the next verification is answered right exactly when the record is
      still there, the clock has not passed its expiry, some attempt is left and the code is
      the one that was sent; and the attempts used are the wrong answers given, if none was
      stale. */
  lemma RightExactlyWhen(c: Config, k: Keys, otp: string, sent: int, es: seq<Event>, tried: string)
    requires !c.isDev && AfterSend(c, k, otp, sent, true).1.Sent?
    ensures var w := RunFrom(c, Start(c, k, otp, sent), es);
      && (AfterVerify(c, w.keys, tried, w.now).1.Right? <==>
            && w.keys.record.Some? && w.now <= sent + c.expiryMs
            && w.keys.record.value.attempts < c.maxAttempts && tried == otp)
      && (w.stale == 0 && w.keys.record.Some? ==> w.keys.record.value.attempts == Count(w.answers, Wrong))
  {
    RunFits(c, k, otp, sent, es);
  }

  /** Whether something in the run ended the cooldown: its key lapsed, or a right answer was
      given. */
  predicate CooldownEnds(w: World, es: seq<Event>) {
    Count(w.answers, Right) > 0 || exists i :: 0 <= i < |es| && es[i].CooldownLapses?
  }

  /** After every run since a code was sent: a new one is refused if and only if nothing has
      ended the cooldown. */
  lemma {:induction false} ResendRefusedExactly(c: Config, k: Keys, otp: string, sent: int, es: seq<Event>,
                                                again: string, delivered: bool)
    requires !c.isDev && AfterSend(c, k, otp, sent, true).1.Sent?
    ensures var w := RunFrom(c, Start(c, k, otp, sent), es);
      AfterSend(c, w.keys, again, w.now, delivered).1.CoolingDown? <==> !CooldownEnds(w, es)
    decreases |es|
  {
    if es != [] {
      var n := |es| - 1;
      ResendRefusedExactly(c, k, otp, sent, es[..n], again, delivered);
      var v := RunFrom(c, Start(c, k, otp, sent), es[..n]);
      var w := RunFrom(c, Start(c, k, otp, sent), es);
      assert w == Step(c, v, es[n]);
      CooldownStep(c, v, es[n], again, delivered);
      assert es == es[..n] + [es[n]];
      assert (exists i :: 0 <= i < |es| && es[i].CooldownLapses?) <==>
             (exists i :: 0 <= i < n && es[..n][i].CooldownLapses?) || es[n].CooldownLapses? by {
        if i :| 0 <= i < |es| && es[i].CooldownLapses? {
          assert i < n ==> es[..n][i].CooldownLapses?;
        }
        if i :| 0 <= i < n && es[..n][i].CooldownLapses? {
          assert es[i].CooldownLapses?;
        }
      }
    }
  }

  lemma CooldownStep(c: Config, w: World, e: Event, again: string, delivered: bool)
    requires !c.isDev
    ensures var v := Step(c, w, e);
      var answered := Count(v.answers, Right) > Count(w.answers, Right);
      && Count(v.answers, Right) >= Count(w.answers, Right)
      && (v.keys.cooldown <==> w.keys.cooldown && !answered && !e.CooldownLapses?)
      && (AfterSend(c, v.keys, again, v.now, delivered).1.CoolingDown? <==> v.keys.cooldown)
  {
    var v := Step(c, w, e);
    if |v.answers| > |w.answers| {
      CountAppend(w.answers, v.answers[|w.answers|], Right);
    }
  }

  /** A delivered code starts with no attempts used, its expiry the configured time away; one
      that is not delivered leaves no record and no cooldown, so that it can be sent again. */
  lemma FreshCode(c: Config, k: Keys, otp: string, now: int, delivered: bool)
    requires !k.cooldown && !c.isDev
    ensures var (after, reply) := AfterSend(c, k, otp, now, delivered);
      && (delivered ==>
            && reply.Sent? && AfterSend(c, after, otp, now, true).1.CoolingDown?
            && (0 <= c.expiryMs && 0 < c.maxAttempts ==> AfterVerify(c, after, otp, now + c.expiryMs).1.Right?)
            && AfterVerify(c, after, otp, now + c.expiryMs + 1).1.Expired?)
      && (!delivered ==>
            && reply.NotDelivered? && AfterSend(c, after, otp, now, true).1.Sent?
            && AfterVerify(c, after, otp, now).1.NotFound?)
  {
  }

  /** A verification that is answered right, or finds the code expired or used up, ends the
      record: the next one finds none. */
  lemma RecordEnds(c: Config, k: Keys, otp: string, now: int, next: string, later: nat)
    requires !c.isDev
    ensures var (after, answer) := AfterVerify(c, k, otp, now);
      answer.Right? || answer.Expired? || answer.TooMany? <==>
        k.record.Some? && AfterVerify(c, after, next, now + later).1.NotFound?
  {
  }

  /** In development the code 1234 is right for everybody and changes nothing; any other is
      verified as in production; and a code counts as sent without being delivered. */
  lemma DevelopmentMode(c: Config, k: Keys, otp: string, now: int, delivered: bool)
    requires c.isDev
    ensures var production := c.(isDev := false);
      && AfterVerify(c, k, "1234", now) == (k, Right)
      && (otp != "1234" ==> AfterVerify(c, k, otp, now) == AfterVerify(production, k, otp, now))
      && AfterSend(c, k, otp, now, delivered) == AfterSend(production, k, otp, now, true)
  {
  }

  // ---------------------------------------------------------------------------------------
  // When another answer can still follow
  // ---------------------------------------------------------------------------------------

  predicate Alive(c: Config, record: Option<Record>, now: int) {
    record.Some? && now <= record.value.expiresAt && record.value.attempts < c.maxAttempts
  }

  predicate Open(c: Config, w: World) {
    Alive(c, w.keys.record, w.now) || exists call :: call in w.inHand && Alive(c, w.inHand[call], w.now)
  }

  ghost predicate AnswerAgain(c: Config, w: World, a: Answer) {
    exists more: seq<Event> :: Count(RunFrom(c, w, more).answers, a) > Count(w.answers, a)
  }

  /** What to try to be answered so by a live record. */
  function Try(record: Record, a: Answer): string {
    if a.Right? then record.otp else record.otp + "0"
  }

  lemma LiveAnswers(c: Config, w: World, read: Option<Record>, a: Answer)
    requires Alive(c, read, w.now) && !c.isDev && (a.Right? || a.Wrong?)
    ensures Count(Answered(c, w, read, Try(read.value, a)).answers, a) == Count(w.answers, a) + 1
  {
    assert read.value.otp + "0" != read.value.otp;
    CountAppend(w.answers, (a, w.now), a);
  }

  lemma OpenAnswers(c: Config, w: World, a: Answer)
    requires Open(c, w) && !c.isDev && (a.Right? || a.Wrong?)
    ensures AnswerAgain(c, w, a)
  {
    var e: Event;
    if Alive(c, w.keys.record, w.now) {
      e := Verify(Try(w.keys.record.value, a));
      LiveAnswers(c, w, w.keys.record, a);
    } else {
      var call :| call in w.inHand && Alive(c, w.inHand[call], w.now);
      e := Answers(call, Try(w.inHand[call].value, a));
      LiveAnswers(c, w.(inHand := w.inHand - {call}), w.inHand[call], a);
    }
    Runs.RunTrace((w, e) => Step(c, w, e), [e], [w, Step(c, w, e)]);
    assert Count(RunFrom(c, w, [e]).answers, a) > Count(w.answers, a);
  }

  lemma StepShut(c: Config, w: World, e: Event, a: Answer)
    requires !Open(c, w) && !c.isDev && (a.Right? || a.Wrong?)
    ensures !Open(c, Step(c, w, e)) && Count(Step(c, w, e).answers, a) == Count(w.answers, a)
  {
    var v := Step(c, w, e);
    assert forall call :: call in v.inHand ==> !Alive(c, v.inHand[call], v.now);
    if |v.answers| > |w.answers| {
      CountAppend(w.answers, v.answers[|w.answers|], a);
    }
  }

  /** After every run, whatever overlapped in it: some continuation brings another right answer,
      or another wrong one, if and only if the stored record, or one that some verification has
      read, is neither expired nor used up. */
  lemma AnswerAgainExactly(c: Config, k: Keys, otp: string, sent: int, es: seq<Event>, a: Answer)
    requires !c.isDev && (a.Right? || a.Wrong?)
    ensures var w := RunFrom(c, Start(c, k, otp, sent), es);
      AnswerAgain(c, w, a) <==> Open(c, w)
  {
    var w := RunFrom(c, Start(c, k, otp, sent), es);
    if Open(c, w) {
      OpenAnswers(c, w, a);
    } else {
      var inv := (v: World) => !Open(c, v) && Count(v.answers, a) == Count(w.answers, a);
      forall v, e | inv(v) ensures inv(Step(c, v, e)) {
        StepShut(c, v, e, a);
      }
      forall more: seq<Event> ensures Count(RunFrom(c, w, more).answers, a) == Count(w.answers, a) {
        Runs.RunKeeps((w, e) => Step(c, w, e), inv, w, more);
      }
    }
  }

  /** A wrong verification reads the record, a right one ends it, and the wrong one writes it
      back: the code is accepted again. */
  lemma WrittenBackAcceptsTwice(c: Config, otp: string, wrong: string)
    requires !c.isDev && c.maxAttempts >= 2 && c.expiryMs >= 0 && wrong != otp
    ensures var w := RunFrom(c, Start(c, Keys(None, false), otp, 0),
                             [Reads(1), Verify(otp), Answers(1, wrong), Verify(otp)]);
      Count(w.answers, Right) == 2 && w.stale == 1
  {
    var es := [Reads(1), Verify(otp), Answers(1, wrong), Verify(otp)];
    var w0 := Start(c, Keys(None, false), otp, 0);
    var w1 := Step(c, w0, es[0]);
    var w2 := Step(c, w1, es[1]);
    assert w2 == World(Keys(None, false), 0, [(Right, 0)], map[1 := w0.keys.record], 0);
    var w3 := Step(c, w2, es[2]);
    assert w3.answers == [(Right, 0), (Wrong, 0)] && w3.keys.record == Some(Record(otp, 1, c.expiryMs));
    var w4 := Step(c, w3, es[3]);
    assert w4.answers == [(Right, 0), (Wrong, 0), (Right, 0)] && w4.stale == 1;
    Runs.RunTrace((w, e) => Step(c, w, e), es, [w0, w1, w2, w3, w4]);
    hide Step;
    assert Count([(Right, 0), (Wrong, 0), (Right, 0)], Right) == 2 by {
      CountAppend([], (Right, 0), Right);
      CountAppend([(Right, 0)], (Wrong, 0), Right);
      CountAppend([(Right, 0), (Wrong, 0)], (Right, 0), Right);
      assert [(Right, 0), (Wrong, 0), (Right, 0)] == [(Right, 0), (Wrong, 0)] + [(Right, 0)];
      assert [(Right, 0), (Wrong, 0)] == [(Right, 0)] + [(Wrong, 0)] && [(Right, 0)] == [] + [(Right, 0)];
    }
  }

  class OtpStore {
    const config: Config
    var record: Option<Record>
    var cooldown: bool

    ghost function State(): Keys
      reads this
    {
      Keys(record, cooldown)
    }

    /** The code is stored before it is delivered; a failed delivery rolls both keys back. */
    method SendOtp(otp: string, now: int, delivered: bool) returns (reply: SendReply)
      modifies this
      ensures (State(), reply) == AfterSend(config, old(State()), otp, now, delivered)
    {
      if cooldown {
        return CoolingDown;
      }
      record := Some(Record(otp, 0, now + config.expiryMs));
      cooldown := true;
      if config.isDev {
        return Sent;
      }
      if !delivered {
        record := None;
        cooldown := false;
        return NotDelivered;
      }
      return Sent;
    }

    method VerifyOtp(otp: string, now: int) returns (answer: Answer)
      modifies this
      ensures (State(), answer) == AfterVerify(config, old(State()), otp, now)
    {
      if config.isDev && otp == "1234" {
        return Right;
      }
      if record.None? {
        return NotFound;
      }
      var r := record.value;
      if now > r.expiresAt {
        record := None;
        return Expired;
      }
      if r.attempts >= config.maxAttempts {
        record := None;
        return TooMany;
      }
      if r.otp != otp {
        record := Some(r.(attempts := r.attempts + 1));
        return Wrong;
      }
      record := None;
      cooldown := false;
      return Right;
    }
  }
}
