/** A driver's bank accounts, oldest first, and which of them is primary. */
module BankAccounts {
  import Runs

  datatype Account = Account(id: nat, primary: bool)

  datatype Event = Add(id: nat) | Remove(id: nat) | SetPrimary(id: nat)

  predicate Has(accounts: seq<Account>, id: nat) {
    exists i :: 0 <= i < |accounts| && accounts[i].id == id
  }

  /** The first account is primary, later ones are not. */
  function AfterAdd(accounts: seq<Account>, id: nat): seq<Account> {
    if Has(accounts, id) then accounts else accounts + [Account(id, accounts == [])]
  }

  function Without(accounts: seq<Account>, id: nat): seq<Account> {
    if accounts == [] then []
    else if accounts[0].id == id then accounts[1..]
    else [accounts[0]] + Without(accounts[1..], id)
  }

  predicate WasPrimary(accounts: seq<Account>, id: nat) {
    exists i :: 0 <= i < |accounts| && accounts[i] == Account(id, true)
  }

  /** When the primary account goes, the oldest one left takes its place. */
  function AfterRemove(accounts: seq<Account>, id: nat): seq<Account> {
    var left := Without(accounts, id);
    if WasPrimary(accounts, id) && left != [] then [left[0].(primary := true)] + left[1..] else left
  }

  function Only(accounts: seq<Account>, id: nat): seq<Account> {
    seq(|accounts|, i requires 0 <= i < |accounts| => accounts[i].(primary := accounts[i].id == id))
  }

  function AfterSetPrimary(accounts: seq<Account>, id: nat): seq<Account> {
    if Has(accounts, id) then Only(accounts, id) else accounts
  }

  function Step(accounts: seq<Account>, e: Event): seq<Account> {
    match e
    case Add(id) => AfterAdd(accounts, id)
    case Remove(id) => AfterRemove(accounts, id)
    case SetPrimary(id) => AfterSetPrimary(accounts, id)
  }

  ghost predicate Distinct(accounts: seq<Account>) {
    forall i, j :: 0 <= i < j < |accounts| ==> accounts[i].id != accounts[j].id
  }

  predicate PrimaryAt(accounts: seq<Account>, i: int) {
    0 <= i < |accounts| && accounts[i].primary
  }

  ghost predicate AtMostOne(accounts: seq<Account>) {
    forall i, j :: PrimaryAt(accounts, i) && PrimaryAt(accounts, j) ==> i == j
  }

  ghost predicate SomePrimary(accounts: seq<Account>) {
    exists i :: PrimaryAt(accounts, i)
  }

  ghost predicate ExactlyOnePrimary(accounts: seq<Account>) {
    SomePrimary(accounts) && AtMostOne(accounts)
  }

  ghost predicate Fits(accounts: seq<Account>) {
    Distinct(accounts) && (accounts != [] ==> ExactlyOnePrimary(accounts))
  }

  /** Removing an account closes the gap and keeps the order. */
  lemma {:induction false} WithoutAt(accounts: seq<Account>, i: int)
    requires Distinct(accounts) && 0 <= i < |accounts|
    ensures Without(accounts, accounts[i].id) == accounts[..i] + accounts[i + 1..]
  {
    if i > 0 {
      assert Distinct(accounts[1..]);
      WithoutAt(accounts[1..], i - 1);
      assert accounts[1..][i - 1] == accounts[i];
      assert accounts[..i] == [accounts[0]] + accounts[1..][..i - 1];
      assert accounts[1..][i..] == accounts[i + 1..];
    }
  }

  lemma {:induction false} WithoutAbsent(accounts: seq<Account>, id: nat)
    requires !Has(accounts, id)
    ensures Without(accounts, id) == accounts
  {
    if accounts != [] {
      assert accounts[0].id != id;
      assert !Has(accounts[1..], id) by {
        assert forall i :: 0 <= i < |accounts| - 1 ==> accounts[1..][i] == accounts[i + 1];
      }
      WithoutAbsent(accounts[1..], id);
    }
  }

  lemma AddFits(accounts: seq<Account>, id: nat)
    requires Fits(accounts)
    ensures Fits(AfterAdd(accounts, id))
  {
    var after := AfterAdd(accounts, id);
    if after != accounts {
      assert forall i :: 0 <= i < |accounts| ==> after[i] == accounts[i];
      if accounts == [] {
        assert PrimaryAt(after, 0);
      } else {
        var p :| PrimaryAt(accounts, p);
        assert PrimaryAt(after, p);
        assert forall i :: PrimaryAt(after, i) ==> PrimaryAt(accounts, i);
      }
    }
  }

  function Cut(accounts: seq<Account>, k: nat): seq<Account>
    requires k < |accounts|
  {
    accounts[..k] + accounts[k + 1..]
  }

  /** Cutting out one account moves the later ones up by one. */
  lemma CutAt(accounts: seq<Account>, k: nat)
    requires Distinct(accounts) && k < |accounts|
    ensures Distinct(Cut(accounts, k))
    ensures forall i :: 0 <= i < |accounts| - 1 ==> Cut(accounts, k)[i] == accounts[if i < k then i else i + 1]
  {
  }

  /** With the primary one cut out, promoting the oldest restores exactly one. */
  lemma PromoteFits(accounts: seq<Account>, k: nat)
    requires Fits(accounts) && PrimaryAt(accounts, k) && |accounts| > 1
    ensures var left := Cut(accounts, k); Fits([left[0].(primary := true)] + left[1..])
  {
    CutAt(accounts, k);
    var left := Cut(accounts, k);
    var after := [left[0].(primary := true)] + left[1..];
    assert PrimaryAt(after, 0);
    forall i | PrimaryAt(after, i) ensures i == 0 {
      assert i > 0 ==> PrimaryAt(accounts, if i < k then i else i + 1);
    }
  }

  /** With another one cut out, the primary one stays. */
  lemma CutFits(accounts: seq<Account>, k: nat)
    requires Fits(accounts) && k < |accounts| && !PrimaryAt(accounts, k)
    ensures Fits(Cut(accounts, k))
  {
    CutAt(accounts, k);
    var p :| PrimaryAt(accounts, p);
    var after := Cut(accounts, k);
    assert PrimaryAt(after, if p < k then p else p - 1);
    forall i, j | PrimaryAt(after, i) && PrimaryAt(after, j) ensures i == j {
      assert PrimaryAt(accounts, if i < k then i else i + 1);
      assert PrimaryAt(accounts, if j < k then j else j + 1);
    }
  }

  lemma RemoveFits(accounts: seq<Account>, id: nat)
    requires Fits(accounts)
    ensures Fits(AfterRemove(accounts, id))
  {
    if !Has(accounts, id) {
      WithoutAbsent(accounts, id);
      assert !WasPrimary(accounts, id);
    } else {
      var k :| 0 <= k < |accounts| && accounts[k].id == id;
      WithoutAt(accounts, k);
      if PrimaryAt(accounts, k) {
        assert accounts[k] == Account(id, true);
        if |accounts| > 1 {
          PromoteFits(accounts, k);
        }
      } else {
        assert !WasPrimary(accounts, id);
        CutFits(accounts, k);
      }
    }
  }

  lemma SetPrimaryFits(accounts: seq<Account>, id: nat)
    requires Fits(accounts)
    ensures Fits(AfterSetPrimary(accounts, id))
    ensures Has(accounts, id) ==> WasPrimary(AfterSetPrimary(accounts, id), id)
  {
    if Has(accounts, id) {
      var k :| 0 <= k < |accounts| && accounts[k].id == id;
      assert PrimaryAt(AfterSetPrimary(accounts, id), k);
      assert AfterSetPrimary(accounts, id)[k] == Account(id, true);
    }
  }

  function Ids(accounts: seq<Account>): seq<nat> {
    seq(|accounts|, i requires 0 <= i < |accounts| => accounts[i].id)
  }

  lemma IdsOfCut(accounts: seq<Account>, k: nat)
    requires k < |accounts|
    ensures Ids(Cut(accounts, k)) == Ids(accounts)[..k] + Ids(accounts)[k + 1..]
  {
  }

  lemma IdsOfPromoted(accounts: seq<Account>)
    requires accounts != []
    ensures Ids([accounts[0].(primary := true)] + accounts[1..]) == Ids(accounts)
  {
  }

  lemma RemovedIs(accounts: seq<Account>, k: nat)
    requires Distinct(accounts) && k < |accounts|
    ensures var left := Cut(accounts, k);
      AfterRemove(accounts, accounts[k].id) ==
        if accounts[k].primary && left != [] then [left[0].(primary := true)] + left[1..] else left
  {
    WithoutAt(accounts, k);
    OwnFlag(accounts, k);
    hide Distinct, Without, WasPrimary;
  }

  /** Accounts stay in the order they were added; removing the primary one makes the oldest of
      the others primary, and leaves their flags alone. */
  lemma OldestIsPromoted(accounts: seq<Account>, k: nat)
    requires Fits(accounts) && k < |accounts|
    ensures var after := AfterRemove(accounts, accounts[k].id);
      && Ids(after) == Ids(accounts)[..k] + Ids(accounts)[k + 1..]
      && (accounts[k].primary && after != [] ==> PrimaryAt(after, 0))
      && (forall i :: 0 < i < |after| ==> after[i] == accounts[if i < k then i else i + 1])
      && (!accounts[k].primary && after != [] ==> after[0] == accounts[if 0 < k then 0 else 1])
  {
    RemovedIs(accounts, k);
    IdsOfCut(accounts, k);
    hide AfterRemove, Fits, Ids;
    if |accounts| > 1 {
      IdsOfPromoted(Cut(accounts, k));
    }
  }

  lemma OwnFlag(accounts: seq<Account>, k: nat)
    requires Distinct(accounts) && k < |accounts|
    ensures WasPrimary(accounts, accounts[k].id) <==> accounts[k].primary
  {
    if accounts[k].primary {
      assert accounts[k] == Account(accounts[k].id, true);
    }
  }

  lemma AddedLast(accounts: seq<Account>, id: nat)
    requires !Has(accounts, id)
    ensures var after := AfterAdd(accounts, id);
      Ids(after) == Ids(accounts) + [id] && after[..|accounts|] == accounts
  {
  }

  /** Whatever is added, removed and chosen, in any order, a driver with any account has
      exactly one primary account. */
  lemma AlwaysOnePrimary(es: seq<Event>)
    ensures var accounts := Runs.Run(Step, [], es);
      Distinct(accounts) && (accounts != [] ==> ExactlyOnePrimary(accounts))
  {
    forall accounts, e | Fits(accounts) ensures Fits(Step(accounts, e)) {
      match e
      case Add(id) => AddFits(accounts, id);
      case Remove(id) => RemoveFits(accounts, id);
      case SetPrimary(id) => SetPrimaryFits(accounts, id);
    }
    Runs.RunKeeps(Step, accounts => Fits(accounts), [], es);
  }

  // ---------------------------------------------------------------------------------------
  // Calls at the same time
  // ---------------------------------------------------------------------------------------

  /** A call between its two statements: an add has counted the accounts, a deletion has removed
      the primary one, a choice has cleared every flag. */
  datatype Task = Adding(id: nat, first: bool) | Promoting | Setting(id: nat)

  datatype Table = Table(accounts: seq<Account>, tasks: map<nat, Task>)

  datatype Statement =
    | CountForAdd(call: nat, id: nat)
    | InsertNew(call: nat)
    | RemoveRow(call: nat, id: nat)
    | PromoteOldest(call: nat)
    | ClearAll(call: nat, id: nat)
    | SetChosen(call: nat)

  function Inserted(accounts: seq<Account>, a: Account): seq<Account> {
    if Has(accounts, a.id) then accounts else accounts + [a]
  }

  function Flagged(accounts: seq<Account>, k: nat): seq<Account>
    requires k < |accounts|
  {
    accounts[k := accounts[k].(primary := true)]
  }

  function Position(accounts: seq<Account>, id: nat): (k: nat)
    requires Has(accounts, id)
    ensures k < |accounts| && accounts[k].id == id
  {
    if accounts[0].id == id then 0
    else
      assert Has(accounts[1..], id) by {
        var i :| 0 <= i < |accounts| && accounts[i].id == id;
        assert accounts[1..][i - 1].id == id;
      }
      1 + Position(accounts[1..], id)
  }

  /** Saving an account that was deleted meanwhile inserts it again. */
  function Chosen(accounts: seq<Account>, id: nat): seq<Account> {
    if Has(accounts, id) then Flagged(accounts, Position(accounts, id)) else accounts + [Account(id, true)]
  }

  function Cleared(accounts: seq<Account>): seq<Account> {
    seq(|accounts|, i requires 0 <= i < |accounts| => accounts[i].(primary := false))
  }

  function Do(t: Table, e: Statement): Table {
    match e
    case CountForAdd(call, id) =>
      if call in t.tasks || Has(t.accounts, id) then t
      else t.(tasks := t.tasks[call := Adding(id, t.accounts == [])])
    case InsertNew(call) =>
      if call !in t.tasks || !t.tasks[call].Adding? then t
      else Table(Inserted(t.accounts, Account(t.tasks[call].id, t.tasks[call].first)), t.tasks - {call})
    case RemoveRow(call, id) =>
      if call in t.tasks || !Has(t.accounts, id) then t
      else Table(Without(t.accounts, id), if WasPrimary(t.accounts, id) then t.tasks[call := Promoting] else t.tasks)
    case PromoteOldest(call) =>
      if call !in t.tasks || !t.tasks[call].Promoting? then t
      else Table(if t.accounts == [] then [] else Flagged(t.accounts, 0), t.tasks - {call})
    case ClearAll(call, id) =>
      if call in t.tasks || !Has(t.accounts, id) then t
      else Table(Cleared(t.accounts), t.tasks[call := Setting(id)])
    case SetChosen(call) =>
      if call !in t.tasks || !t.tasks[call].Setting? then t
      else Table(Chosen(t.accounts, t.tasks[call].id), t.tasks - {call})
  }

  predicate WillSet(tasks: map<nat, Task>) {
    exists call :: call in tasks && !tasks[call].Adding?
  }

  /** A driver with accounts and no primary one is about to get one. */
  ghost predicate PrimaryOrComing(t: Table) {
    t.accounts != [] ==> SomePrimary(t.accounts) || WillSet(t.tasks)
  }

  ghost predicate PrimaryElsewhere(accounts: seq<Account>, k: int) {
    exists i :: i != k && PrimaryAt(accounts, i)
  }

  /** A statement that sets a flag while another account has it. */
  ghost predicate SetsSecond(t: Table, e: Statement) {
    match e
    case InsertNew(call) =>
      call in t.tasks && t.tasks[call].Adding? && t.tasks[call].first
      && !Has(t.accounts, t.tasks[call].id) && SomePrimary(t.accounts)
    case PromoteOldest(call) =>
      call in t.tasks && t.tasks[call].Promoting? && t.accounts != [] && PrimaryElsewhere(t.accounts, 0)
    case SetChosen(call) =>
      call in t.tasks && t.tasks[call].Setting?
      && var id := t.tasks[call].id;
         PrimaryElsewhere(t.accounts, if Has(t.accounts, id) then Position(t.accounts, id) else -1)
    case _ => false
  }

  /** The insert of an account that was not the first when it was counted, and is now. */
  ghost predicate InsertsPlain(t: Table, e: Statement) {
    e.InsertNew? && e.call in t.tasks && t.tasks[e.call].Adding? && !t.tasks[e.call].first
    && t.accounts == [] && !WillSet(t.tasks)
  }

  lemma FlaggedPrimary(accounts: seq<Account>, k: nat)
    requires k < |accounts|
    ensures PrimaryAt(Flagged(accounts, k), k)
    ensures forall i :: i != k ==> PrimaryAt(Flagged(accounts, k), i) == PrimaryAt(accounts, i)
  {
  }

  lemma FlaggedExactly(accounts: seq<Account>, k: nat)
    requires k < |accounts| && AtMostOne(accounts)
    ensures AtMostOne(Flagged(accounts, k)) <==> !PrimaryElsewhere(accounts, k)
  {
    var after := Flagged(accounts, k);
    FlaggedPrimary(accounts, k);
    hide Flagged, PrimaryAt;
    if i :| i != k && PrimaryAt(accounts, i) {
      assert PrimaryAt(after, i);
    }
  }

  lemma AppendedPrimary(accounts: seq<Account>, a: Account)
    ensures SomePrimary(accounts + [a]) <==> a.primary || SomePrimary(accounts)
    ensures PrimaryAt(accounts + [a], |accounts|) == a.primary
    ensures forall i :: i != |accounts| ==> PrimaryAt(accounts + [a], i) == PrimaryAt(accounts, i)
  {
    var after := accounts + [a];
    assert forall i :: i != |accounts| ==> PrimaryAt(after, i) == PrimaryAt(accounts, i);
    assert PrimaryAt(after, |accounts|) == a.primary;
  }

  lemma AppendedExactly(accounts: seq<Account>, a: Account)
    requires AtMostOne(accounts)
    ensures AtMostOne(accounts + [a]) <==> !(a.primary && SomePrimary(accounts))
  {
    AppendedPrimary(accounts, a);
    assert !PrimaryAt(accounts, |accounts|);
    hide PrimaryAt;
  }

  /** Where a flag of the shortened list comes from. */
  lemma CutPrimary(accounts: seq<Account>, k: nat, i: int)
    requires k < |accounts|
    ensures PrimaryAt(Cut(accounts, k), i) <==> i >= 0 && PrimaryAt(accounts, if i < k then i else i + 1)
  {
  }

  lemma CutAtMostOne(accounts: seq<Account>, k: nat)
    requires k < |accounts| && AtMostOne(accounts)
    ensures AtMostOne(Cut(accounts, k))
  {
    var after := Cut(accounts, k);
    forall i, j | PrimaryAt(after, i) && PrimaryAt(after, j) ensures i == j {
      CutPrimary(accounts, k, i);
      CutPrimary(accounts, k, j);
    }
  }

  lemma CutSomePrimary(accounts: seq<Account>, k: nat)
    requires k < |accounts| && SomePrimary(accounts) && !PrimaryAt(accounts, k)
    ensures SomePrimary(Cut(accounts, k))
  {
    var p :| PrimaryAt(accounts, p);
    var i := if p < k then p else p - 1;
    CutPrimary(accounts, k, i);
    assert PrimaryAt(Cut(accounts, k), i);
  }

  /** Removing one account leaves the others as they were. */
  lemma RemovedFrom(accounts: seq<Account>, id: nat)
    requires Distinct(accounts) && Has(accounts, id)
    ensures AtMostOne(accounts) ==> AtMostOne(Without(accounts, id))
    ensures SomePrimary(accounts) && !WasPrimary(accounts, id) ==> SomePrimary(Without(accounts, id))
  {
    var k := Position(accounts, id);
    WithoutAt(accounts, k);
    hide Without, Distinct, AtMostOne, SomePrimary;
    if AtMostOne(accounts) {
      CutAtMostOne(accounts, k);
    }
    if SomePrimary(accounts) && !WasPrimary(accounts, id) {
      assert accounts[k] != Account(id, true);
      CutSomePrimary(accounts, k);
    }
  }

  lemma DoDistinct(t: Table, e: Statement)
    requires Distinct(t.accounts)
    ensures Distinct(Do(t, e).accounts)
  {
    if e.RemoveRow? && Has(t.accounts, e.id) {
      WithoutAt(t.accounts, Position(t.accounts, e.id));
      CutAt(t.accounts, Position(t.accounts, e.id));
    }
  }

  lemma DoExactly(t: Table, e: Statement)
    requires Distinct(t.accounts) && AtMostOne(t.accounts)
    ensures AtMostOne(Do(t, e).accounts) <==> !SetsSecond(t, e)
  {
    match e
    case CountForAdd(call, id) =>
    case InsertNew(call) =>
      if call in t.tasks && t.tasks[call].Adding? {
        AppendedExactly(t.accounts, Account(t.tasks[call].id, t.tasks[call].first));
      }
    case RemoveRow(call, id) =>
      if Has(t.accounts, id) {
        RemovedFrom(t.accounts, id);
      }
    case PromoteOldest(call) =>
      if t.accounts != [] {
        FlaggedExactly(t.accounts, 0);
      }
    case ClearAll(call, id) =>
    case SetChosen(call) =>
      if call in t.tasks && t.tasks[call].Setting? {
        var id := t.tasks[call].id;
        if Has(t.accounts, id) {
          FlaggedExactly(t.accounts, Position(t.accounts, id));
        } else {
          AppendedExactly(t.accounts, Account(id, true));
          assert SomePrimary(t.accounts) <==> PrimaryElsewhere(t.accounts, -1);
        }
      }
  }

  lemma RunDistinct(es: seq<Statement>)
    ensures Distinct(Runs.Run(Do, Table([], map[]), es).accounts)
  {
    forall t: Table, e | Distinct(t.accounts) ensures Distinct(Do(t, e).accounts) {
      DoDistinct(t, e);
    }
    Runs.RunKeeps(Do, (t: Table) => Distinct(t.accounts), Table([], map[]), es);
  }

  /** However the calls overlap: after any run, the next statement makes a second primary
      account if and only if it sets a flag while another account has it. */
  lemma SecondPrimaryExactly(es: seq<Statement>, e: Statement)
    ensures var t := Runs.Run(Do, Table([], map[]), es);
      AtMostOne(t.accounts) ==> (AtMostOne(Do(t, e).accounts) <==> !SetsSecond(t, e))
  {
    RunDistinct(es);
    var t := Runs.Run(Do, Table([], map[]), es);
    if AtMostOne(t.accounts) {
      DoExactly(t, e);
    }
  }

  /** And a driver who has a primary account, or one to come, is left with neither if and only
      if an account counted as a later one is inserted as the first. */
  lemma NoPrimaryExactly(es: seq<Statement>, e: Statement)
    ensures var t := Runs.Run(Do, Table([], map[]), es);
      PrimaryOrComing(t) ==> (PrimaryOrComing(Do(t, e)) <==> !InsertsPlain(t, e))
  {
    RunDistinct(es);
    var t := Runs.Run(Do, Table([], map[]), es);
    if PrimaryOrComing(t) {
      NoPrimaryStep(t, e);
    }
  }

  lemma NoPrimaryStep(t: Table, e: Statement)
    requires Distinct(t.accounts) && PrimaryOrComing(t)
    ensures PrimaryOrComing(Do(t, e)) <==> !InsertsPlain(t, e)
  {
    var u := Do(t, e);
    match e
    case CountForAdd(call, id) => TasksKept(t.tasks, u.tasks, call);
    case InsertNew(call) =>
      TasksKept(t.tasks, u.tasks, call);
      if call in t.tasks && t.tasks[call].Adding? {
        AppendedPrimary(t.accounts, Account(t.tasks[call].id, t.tasks[call].first));
      }
    case RemoveRow(call, id) =>
      TasksKept(t.tasks, u.tasks, call);
      if call !in t.tasks && Has(t.accounts, id) {
        RemovedFrom(t.accounts, id);
        assert WasPrimary(t.accounts, id) ==> call in u.tasks && !u.tasks[call].Adding?;
      }
    case PromoteOldest(call) =>
      if t.accounts != [] {
        FlaggedPrimary(t.accounts, 0);
      }
    case ClearAll(call, id) =>
      assert u != t ==> call in u.tasks && !u.tasks[call].Adding?;
    case SetChosen(call) =>
      if call in t.tasks && t.tasks[call].Setting? {
        var id := t.tasks[call].id;
        if Has(t.accounts, id) {
          FlaggedPrimary(t.accounts, Position(t.accounts, id));
        } else {
          AppendedPrimary(t.accounts, Account(id, true));
        }
      }
  }

  lemma TasksKept(before: map<nat, Task>, after: map<nat, Task>, call: nat)
    requires forall c :: c != call ==> (c in before <==> c in after) && (c in before ==> before[c] == after[c])
    requires call in before && call in after ==> after[call] == before[call]
    requires call in before && !before[call].Adding? ==> call in after
    requires call in after && call !in before ==> after[call].Adding? || after[call].Promoting?
    ensures WillSet(before) ==> WillSet(after)
    ensures WillSet(after) ==> WillSet(before) || (call in after && call !in before && after[call].Promoting?)
  {
    if c :| c in before && !before[c].Adding? {
      assert c in after && !after[c].Adding?;
    }
    if c :| c in after && !after[c].Adding? {
      assert c != call ==> c in before && !before[c].Adding?;
    }
  }

  /** Two accounts added at once are both the first. */
  lemma OverlappingAddsBothPrimary()
    ensures var t := Runs.Run(Do, Table([], map[]),
                              [CountForAdd(1, 10), CountForAdd(2, 11), InsertNew(1), InsertNew(2)]);
      t == Table([Account(10, true), Account(11, true)], map[]) && !AtMostOne(t.accounts)
  {
    var es := [CountForAdd(1, 10), CountForAdd(2, 11), InsertNew(1), InsertNew(2)];
    var t0 := Table([], map[]);
    var t1 := Do(t0, es[0]);
    var t2 := Do(t1, es[1]);
    var t3 := Do(t2, es[2]);
    assert t3.accounts == [Account(10, true)];
    var t4 := Do(t3, es[3]);
    assert t4.accounts == [Account(10, true), Account(11, true)];
    assert PrimaryAt(t4.accounts, 0) && PrimaryAt(t4.accounts, 1);
    Runs.RunTrace(Do, es, [t0, t1, t2, t3, t4]);
  }

  class BankAccountTable {
    var accounts: seq<Account>

    method AddBankAccount(id: nat)
      requires !Has(accounts, id)
      modifies this
      ensures accounts == AfterAdd(old(accounts), id)
    {
      var existingCount := |accounts|;
      accounts := accounts + [Account(id, existingCount == 0)];
    }

    /** Deletes the row, then promotes the oldest one left if the deleted one was primary. */
    method DeleteBankAccount(id: nat) returns (found: bool)
      modifies this
      ensures found <==> Has(old(accounts), id)
      ensures accounts == if found then AfterRemove(old(accounts), id) else old(accounts)
    {
      if !Has(accounts, id) {
        return false;
      }
      var wasPrimary := WasPrimary(accounts, id);
      accounts := Without(accounts, id);
      if wasPrimary && accounts != [] {
        accounts := [accounts[0].(primary := true)] + accounts[1..];
      }
      return true;
    }

    /** Clears every flag, then sets the chosen one. */
    method SetPrimaryBankAccount(id: nat) returns (found: bool)
      requires Distinct(accounts)
      modifies this
      ensures found <==> Has(old(accounts), id)
      ensures accounts == AfterSetPrimary(old(accounts), id)
    {
      found := false;
      var chosen := 0;
      while chosen < |accounts|
        invariant 0 <= chosen <= |accounts|
        invariant forall i :: 0 <= i < chosen ==> accounts[i].id != id
      {
        if accounts[chosen].id == id {
          found := true;
          break;
        }
        chosen := chosen + 1;
      }
      if !found {
        return;
      }
      accounts := seq(|accounts|, i requires 0 <= i < |accounts| reads this => accounts[i].(primary := false));
      accounts := accounts[chosen := accounts[chosen].(primary := true)];
    }
  }
}
