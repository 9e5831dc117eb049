/** The bonus a ride accrues over a run of wins: exact, bounded, increasing. */
module Bonus {
  import opened Model
  import opened Gates
  import opened Rides

  /** Odds carry two decimals, so they are given in hundredths. */
  function Odds(cents: int): real {
    cents as real / 100.0
  }

  /** One win at a streak, in units of 0.0001. */
  function WinUnits(tokens: int, cents: int, streak: int): int {
    tokens * (cents - 100) * (100 + 20 * streak)
  }

  /** The accrued bonus after the wins, win i being scored at streak i. */
  function TotalUnits(tokens: int, cents: seq<int>): int
    decreases |cents|
  {
    if cents == [] then 0
    else
      var last := |cents| - 1;
      TotalUnits(tokens, cents[..last]) + WinUnits(tokens, cents[last], last)
  }

  predicate ValidOdds(cents: seq<int>) {
    forall i | 0 <= i < |cents| :: 100 < cents[i] <= 9999
  }

  /** Wins |cents| matches, continuing onto a next match before every win but the first. */
  function WinRun(ride: Ride, cents: seq<int>, next: int): (run: Result<Ride>)
    decreases |cents|
  {
    if cents == [] then Ok(ride)
    else
      var last := |cents| - 1;
      var won :- WinRun(ride, cents[..last], next);
      var locked :- if last == 0 then Ok(won) else LockOf(won, DecisionPhase, next);
      WonPendingOf(locked, MatchPhase, Odds(cents[last]))
  }

  /** CalculateBonus adds exactly one win's units: no digit past the fourth. */
  lemma OneWinIsExact(tokens: int, cents: int, units: int, streak: int)
    ensures CalculateBonus(Odds(cents), tokens, units as real / 10000.0, streak)
         == (units + WinUnits(tokens, cents, streak)) as real / 10000.0
  {
  }

  /** n wins from a fresh ride at streaks 0..n-1 accrue exactly the closed form. */
  lemma {:induction false} WinRunAccruesExactly(input: Ride, cents: seq<int>, next: int)
    ensures var ride := CreateOf(input, ActionPhase).value;
      var run := WinRun(ride, cents, next);
      && run.Ok?
      && run.value.acc == TotalUnits(ride.tokensLocked, cents) as real / 10000.0
      && run.value.streak == (if cents == [] then 0 else |cents| - 1)
      && run.value.tokensLocked == ride.tokensLocked
      && run.value.state == (if cents == [] then Locked else WonPending)
    decreases |cents|
  {
    if cents != [] {
      var last := |cents| - 1;
      WinRunAccruesExactly(input, cents[..last], next);
      OneWinIsExact(input.tokensLocked, cents[last], TotalUnits(input.tokensLocked, cents[..last]), last);
    }
  }

  /** Every win adds something: the accrual is strictly increasing. */
  lemma EveryWinAdds(tokens: int, cents: seq<int>)
    requires tokens > 0 && ValidOdds(cents) && cents != []
    ensures TotalUnits(tokens, cents[..|cents| - 1]) < TotalUnits(tokens, cents)
  {
    var last := |cents| - 1;
    PositiveProduct(tokens, cents[last] - 100);
    PositiveProduct(tokens * (cents[last] - 100), 100 + 20 * last);
  }

  lemma PositiveProduct(a: int, b: int)
    requires a > 0 && b > 0
    ensures a * b > 0
  {
  }

  const MAX_TOKENS: int := 5_000_000_000

  /** The weights 100 + 20*i of the first n wins add up to 90n + 10n^2. */
  lemma {:induction false} TotalUnitsBound(tokens: int, cents: seq<int>)
    requires 0 < tokens <= MAX_TOKENS && ValidOdds(cents)
    ensures 0 <= TotalUnits(tokens, cents) <= MAX_TOKENS * 9899 * (90 * |cents| + 10 * |cents| * |cents|)
    decreases |cents|
  {
    if cents != [] {
      var last := |cents| - 1;
      TotalUnitsBound(tokens, cents[..last]);
      var c := cents[last] - 100;
      var w := 100 + 20 * last;
      assert 0 < tokens * c <= MAX_TOKENS * 9899 by {
        PositiveProduct(tokens, c);
        MonotoneProduct(tokens, MAX_TOKENS, c, 9899);
      }
      assert 0 < tokens * c * w <= MAX_TOKENS * 9899 * w by {
        PositiveProduct(tokens * c, w);
        MonotoneProduct(tokens * c, MAX_TOKENS * 9899, w, w);
      }
      var n := |cents|;
      assert 90 * last + 10 * last * last + w == 90 * n + 10 * n * n;
    } else {
      assert 90 * |cents| + 10 * |cents| * |cents| == 0;
    }
  }

  lemma MonotoneProduct(a: int, a': int, b: int, b': int)
    requires 0 <= a <= a' && 0 <= b <= b'
    ensures a * b <= a' * b'
  {
  }

  /** A whole season of wins fits the column: no overflow and no rounding. */
  lemma SeasonOfWinsFits(input: Ride, cents: seq<int>, next: int)
    requires 0 < input.tokensLocked <= MAX_TOKENS && ValidOdds(cents) && |cents| <= ROUNDS_PER_SEASON
    ensures var run := WinRun(CreateOf(input, ActionPhase).value, cents, next);
      run.Ok? && 0.0 <= run.value.acc < ACC_LIMIT
      && run.value.acc == TotalUnits(input.tokensLocked, cents) as real / 10000.0
  {
    WinRunAccruesExactly(input, cents, next);
    TotalUnitsBound(input.tokensLocked, cents);
    var n := |cents|;
    assert 90 * n + 10 * n * n <= 17860 by {
      MonotoneProduct(n, ROUNDS_PER_SEASON, n, ROUNDS_PER_SEASON);
      assert 10 * n * n == 10 * (n * n);
    }
    var units := TotalUnits(input.tokensLocked, cents);
    assert units < 1_000_000_000_000_000_000 by {
      MonotoneProduct(MAX_TOKENS * 9899, MAX_TOKENS * 9899, 90 * n + 10 * n * n, 17860);
    }
    assert units as real / 10000.0 < ACC_LIMIT;
  }
}
