/** Reward coins: how many a delivery earns, and the coin balance over any run of operations. */
module CoinRewards {
  import opened Money
  import Runs

  const MIN_COINS_PER_DELIVERY := 5
  const COINS_TO_RUPEES: real := 0.02
  const MIN_TRANSFER := 100

  datatype Category = Medicine | FoodDelivery | SendPackages | TransportGoods

  function DistanceMultiplier(km: real): real {
    if km > 20.0 then 1.5 else if km > 10.0 then 1.25 else 1.0
  }

  function AmountMultiplier(amount: real): real {
    if amount > 1000.0 then 1.5 else if amount > 500.0 then 1.25 else 1.0
  }

  function CategoryMultiplier(category: Category): real {
    match category
    case Medicine => 1.3
    case FoodDelivery => 1.2
    case SendPackages => 1.1
    case TransportGoods => 1.0
  }

  function BaseCoins(km: real, amount: real): real {
    km * 2.0 + amount / 10.0
  }

  function TotalMultiplier(km: real, amount: real, category: Category): real {
    DistanceMultiplier(km) * AmountMultiplier(amount) * CategoryMultiplier(category)
  }

  function RoundedCoins(base: real, multiplier: real): int {
    Round(base * multiplier)
  }

  function AtLeast(n: int, least: int): int {
    if n < least then least else n
  }

  function CalculateRewardCoins(km: real, amount: real, category: Category): int {
    AtLeast(RoundedCoins(BaseCoins(km, amount), TotalMultiplier(km, amount, category)), MIN_COINS_PER_DELIVERY)
  }

  /** The reward of each class of trip, written out: two coins a kilometre and one for ten
      rupees, times the bonuses for distance, amount and category, but five at the least. */
  lemma RewardTable(km: real, amount: real)
    ensures var far := if km <= 10.0 then 1.0 else if km <= 20.0 then 1.25 else 1.5;
      var big := if amount <= 500.0 then 1.0 else if amount <= 1000.0 then 1.25 else 1.5;
      var base := km + km + amount / 10.0;
      && Reward(base, far * big * 1.0) == CalculateRewardCoins(km, amount, TransportGoods)
      && Reward(base, far * big * 1.1) == CalculateRewardCoins(km, amount, SendPackages)
      && Reward(base, far * big * 1.2) == CalculateRewardCoins(km, amount, FoodDelivery)
      && Reward(base, far * big * 1.3) == CalculateRewardCoins(km, amount, Medicine)
  {
    hide RoundedCoins;
    assert BaseCoins(km, amount) == km + km + amount / 10.0;
  }

  function Reward(base: real, bonus: real): int {
    if RoundedCoins(base, bonus) >= 5 then RoundedCoins(base, bonus) else 5
  }

  /** Without a bonus and above the minimum, each kilometre earns two coins and every ten
      rupees one. */
  lemma EachKilometreEarnsTwo(km: real, amount: real)
    requires 0.0 <= km && km + 1.0 <= 10.0 && 0.0 <= amount && amount + 10.0 <= 500.0
    requires CalculateRewardCoins(km, amount, TransportGoods) > MIN_COINS_PER_DELIVERY
    ensures var coins := CalculateRewardCoins(km, amount, TransportGoods);
      && CalculateRewardCoins(km + 1.0, amount, TransportGoods) == coins + 2
      && CalculateRewardCoins(km, amount + 10.0, TransportGoods) == coins + 1
  {
    var base := BaseCoins(km, amount);
    assert base * 1.0 == base && (base + 2.0) * 1.0 == base + 2.0 && (base + 1.0) * 1.0 == base + 1.0;
    assert BaseCoins(km + 1.0, amount) == base + 2.0 && BaseCoins(km, amount + 10.0) == base + 1.0;
    assert TotalMultiplier(km, amount, TransportGoods) == TotalMultiplier(km + 1.0, amount, TransportGoods)
        == TotalMultiplier(km, amount + 10.0, TransportGoods) == 1.0;
    hide BaseCoins, TotalMultiplier;
  }

  /** A longer trip or a bigger order never earns fewer coins, across every threshold. */
  lemma RewardMonotone(km1: real, km2: real, amount1: real, amount2: real, category: Category)
    requires 0.0 <= km1 <= km2 && 0.0 <= amount1 <= amount2
    ensures CalculateRewardCoins(km1, amount1, category) <= CalculateRewardCoins(km2, amount2, category)
  {
    MultiplierMonotone(km1, km2, amount1, amount2, category);
    CoinsMonotone(BaseCoins(km1, amount1), BaseCoins(km2, amount2),
                  TotalMultiplier(km1, amount1, category), TotalMultiplier(km2, amount2, category));
  }

  lemma CoinsMonotone(b1: real, b2: real, m1: real, m2: real)
    requires 0.0 <= b1 <= b2 && 0.0 <= m1 <= m2
    ensures RoundedCoins(b1, m1) <= RoundedCoins(b2, m2)
  {
  }

  lemma MultiplierMonotone(km1: real, km2: real, amount1: real, amount2: real, category: Category)
    requires km1 <= km2 && amount1 <= amount2
    ensures 0.0 <= TotalMultiplier(km1, amount1, category) <= TotalMultiplier(km2, amount2, category)
    ensures TotalMultiplier(km2, amount2, category) <= 2.25 * CategoryMultiplier(category)
  {
  }

  /** At least the guaranteed minimum, at most the base at the largest multipliers. */
  lemma RewardBounded(km: real, amount: real, category: Category)
    requires 0.0 <= km && 0.0 <= amount
    ensures MIN_COINS_PER_DELIVERY <= CalculateRewardCoins(km, amount, category)
      <= AtLeast(RoundedCoins(BaseCoins(km, amount), 2.25 * CategoryMultiplier(category)), MIN_COINS_PER_DELIVERY)
  {
    MultiplierMonotone(km, km, amount, amount, category);
    CoinsMonotone(BaseCoins(km, amount), BaseCoins(km, amount),
                  TotalMultiplier(km, amount, category), 2.25 * CategoryMultiplier(category));
  }

  // ---------------------------------------------------------------------------------------
  // The balance
  // ---------------------------------------------------------------------------------------

  datatype CoinRow = Earned(coins: int) | Redeemed(coins: int)

  /** A customer's coins, rupee wallet and coin ledger. `returned` counts the coins that
      failed accepts put back: those increments have no ledger row. */
  datatype Purse = Purse(coins: int, wallet: real, rows: seq<CoinRow>, returned: int)

  datatype Outcome = Done | TooFewCoins | InsufficientCoins

  datatype Event =
    | Award(km: real, amount: real, category: Category)
    | Credit(coins: int)
    | Transfer(coins: int)
    | Redeem(coins: int)
    | FailedAccept(coins: int)

  function AfterCredit(p: Purse, coins: int): Purse {
    p.(coins := p.coins + coins, rows := p.rows + [Earned(coins)])
  }

  function AfterRedeem(p: Purse, coins: int): (Purse, Outcome) {
    if p.coins < coins then (p, InsufficientCoins)
    else (p.(coins := p.coins - coins, rows := p.rows + [Redeemed(coins)]), Done)
  }

  function Hundreds(coins: int): int {
    coins / 100 * 100
  }

  function AfterTransfer(p: Purse, coins: int): (Purse, Outcome) {
    if coins < MIN_TRANSFER then (p, TooFewCoins)
    else
      var (q, outcome) := AfterRedeem(p, Hundreds(coins));
      if outcome.Done?
      then (q.(wallet := q.wallet + Round2(Hundreds(coins) as real * COINS_TO_RUPEES)), Done)
      else (p, outcome)
  }

  /** An accept that fails after it was asked to redeem coins: whether or not the redemption
      went through, the handler puts the coins back. */
  function AfterFailedAccept(p: Purse, coins: int): Purse {
    if coins > 0 then
      var q := AfterRedeem(p, coins).0;
      q.(coins := q.coins + coins, returned := q.returned + coins)
    else p
  }

  function Step(p: Purse, e: Event): Purse {
    match e
    case Award(km, amount, category) => AfterCredit(p, CalculateRewardCoins(km, amount, category))
    case Credit(coins) => AfterCredit(p, coins)
    case Transfer(coins) => AfterTransfer(p, coins).0
    case Redeem(coins) => AfterRedeem(p, coins).0
    case FailedAccept(coins) => AfterFailedAccept(p, coins)
  }

  function LedgerSum(rows: seq<CoinRow>): int {
    if rows == [] then 0
    else
      var row := rows[|rows| - 1];
      LedgerSum(rows[..|rows| - 1]) + (if row.Earned? then row.coins else -row.coins)
  }

  lemma LedgerSumAppend(rows: seq<CoinRow>, row: CoinRow)
    ensures LedgerSum(rows + [row]) == LedgerSum(rows) + (if row.Earned? then row.coins else -row.coins)
  {
    assert (rows + [row])[..|rows|] == rows;
  }

  ghost predicate Accounted(opening: int, p: Purse) {
    && p.coins == opening + LedgerSum(p.rows) + p.returned
    && p.coins >= 0
  }

  /** Callers never pass a negative number of coins. */
  predicate Sensible(e: Event) {
    e.Award? || e.coins >= 0
  }

  lemma StepAccounted(opening: int, p: Purse, e: Event)
    requires Accounted(opening, p) && Sensible(e)
    ensures Accounted(opening, Step(p, e))
  {
    match e
    case Award(km, amount, category) =>
      LedgerSumAppend(p.rows, Earned(CalculateRewardCoins(km, amount, category)));
    case Credit(coins) => LedgerSumAppend(p.rows, Earned(coins));
    case Transfer(coins) => LedgerSumAppend(p.rows, Redeemed(Hundreds(coins)));
    case Redeem(coins) => LedgerSumAppend(p.rows, Redeemed(coins));
    case FailedAccept(coins) => LedgerSumAppend(p.rows, Redeemed(coins));
  }

  /** Over any run the balance is what the ledger says plus what failed accepts put back, and
      it is never negative. */
  lemma CoinsAccounted(opening: nat, wallet: real, es: seq<Event>)
    requires forall i :: 0 <= i < |es| ==> Sensible(es[i])
    ensures var p := Runs.Run(Step, Purse(opening, wallet, [], 0), es);
      p.coins == opening + LedgerSum(p.rows) + p.returned && p.coins >= 0
  {
    forall p, e | Accounted(opening, p) && Sensible(e)
      ensures Accounted(opening, Step(p, e))
    {
      StepAccounted(opening, p, e);
    }
    Runs.RunOfKeeps(Step, Sensible, p => Accounted(opening, p), Purse(opening, wallet, [], 0), es);
  }

  /** A failed accept leaves the customer's balance alone exactly when the redemption itself
      had gone through; otherwise the customer gains the coins never taken. */
  lemma FailedAcceptNeutral(p: Purse, coins: int)
    ensures AfterFailedAccept(p, coins).coins == p.coins <==> coins <= 0 || coins <= p.coins
    ensures !(coins <= 0 || coins <= p.coins) ==> AfterFailedAccept(p, coins).coins == p.coins + coins
  {
  }

  /** Coins and rupees trade at the fixed rate: what a transfer takes, it pays out. */
  lemma TransferConserves(p: Purse, coins: int)
    ensures var (q, outcome) := AfterTransfer(p, coins);
      && q.wallet - p.wallet == (p.coins - q.coins) as real * COINS_TO_RUPEES
      && (outcome.Done? <==> coins >= MIN_TRANSFER && p.coins >= Hundreds(coins))
      && (outcome.Done? ==> 0 <= coins - (p.coins - q.coins) < 100 && (p.coins - q.coins) % 100 == 0)
      && (!outcome.Done? ==> q == p)
  {
    if coins >= MIN_TRANSFER {
      var n := coins / 100;
      assert Hundreds(coins) as real * COINS_TO_RUPEES == (2 * n) as real;
      WholeRupeesAreWholePaise(2 * n);
      Round2OfWholePaise((2 * n) as real);
    }
  }

  /** The coins offered for the ride are spent elsewhere before the accept fails: the customer
      has the two rupees and the hundred coins. */
  lemma SpentThenReturned()
    ensures var p := Runs.Run(Step, Purse(100, 0.0, [], 0), [Transfer(100), FailedAccept(100)]);
      p.coins == 100 && p.wallet == 2.0 && p.rows == [Redeemed(100)]
  {
    var es := [Transfer(100), FailedAccept(100)];
    var p0 := Purse(100, 0.0, [], 0);
    WholeRupeesAreWholePaise(2);
    Round2OfWholePaise(2.0);
    assert Hundreds(100) == 100 && 100.0 * COINS_TO_RUPEES == 2.0;
    var p1 := Step(p0, es[0]);
    assert p1 == Purse(0, 2.0, [Redeemed(100)], 0);
    Runs.RunTrace(Step, es, [p0, p1, Step(p1, es[1])]);
  }

  /** A delivery pays its reward, into the balance and the ledger, and nothing else. */
  lemma DeliveryPays(p: Purse, km: real, amount: real, category: Category)
    ensures var c := Step(p, Award(km, amount, category));
      && c.coins == p.coins + CalculateRewardCoins(km, amount, category)
      && LedgerSum(c.rows) == LedgerSum(p.rows) + CalculateRewardCoins(km, amount, category)
      && c.wallet == p.wallet && c.returned == p.returned
  {
    LedgerSumAppend(p.rows, Earned(CalculateRewardCoins(km, amount, category)));
    hide CalculateRewardCoins, LedgerSum;
  }

  class CustomerCoins {
    var coins: int
    var wallet: real
    var rows: seq<CoinRow>
    ghost var returned: int

    ghost function State(): Purse
      reads this
    {
      Purse(coins, wallet, rows, returned)
    }

    method CreditCoins(amount: int)
      modifies this
      ensures State() == AfterCredit(old(State()), amount)
    {
      rows := rows + [Earned(amount)];
      coins := coins + amount;
    }

    method AwardCoins(km: real, orderAmount: real, category: Category) returns (earned: int)
      modifies this
      ensures State() == Step(old(State()), Award(km, orderAmount, category))
      ensures earned == coins - old(coins)
    {
      earned := CalculateRewardCoins(km, orderAmount, category);
      CreditCoins(earned);
    }

    method RedeemCoins(amount: int) returns (outcome: Outcome)
      modifies this
      ensures (State(), outcome) == AfterRedeem(old(State()), amount)
    {
      if coins < amount {
        return InsufficientCoins;
      }
      coins := coins - amount;
      rows := rows + [Redeemed(amount)];
      return Done;
    }

    method TransferToWallet(amount: int) returns (outcome: Outcome)
      modifies this
      ensures (State(), outcome) == AfterTransfer(old(State()), amount)
    {
      if amount < MIN_TRANSFER {
        return TooFewCoins;
      }
      outcome := RedeemCoins(Hundreds(amount));
      if outcome.Done? {
        wallet := wallet + Round2(Hundreds(amount) as real * COINS_TO_RUPEES);
      }
    }

    /** The coin side of an accept whose booking is not created. */
    method FailAccept(coinsToRedeem: int)
      modifies this
      ensures State() == AfterFailedAccept(old(State()), coinsToRedeem)
    {
      if coinsToRedeem > 0 {
        var outcome := RedeemCoins(coinsToRedeem);
        coins := coins + coinsToRedeem;
        returned := returned + coinsToRedeem;
      }
    }
  }
}
