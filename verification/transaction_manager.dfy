/** transaction_manager.py: the gas-price estimate, the send-and-wait retry with
    exponential backoff, and the choice of the network with the highest bridge priority.
    Chain calls are replaced by what they returned; floating-point products are exact. */
module TransactionManager {
  import opened Wrappers

  /** Congestion level above which the fee cap would be raised. */
  const HighCongestion: real := 0.8

  /** Fee fields merged into a transaction: the cap and the tip, in wei. The tip is always
      an integer; the cap is one too unless the congestion surcharge multiplies it by a
      float, so it is kept as a `real`. */
  datatype GasParams = GasParams(maxFeePerGas: real, maxPriorityFeePerGas: int)

  // ---------------------------------------------------------------------------
  // estimate_optimal_gas
  // ---------------------------------------------------------------------------

  /** `_check_network_congestion`: a placeholder reporting moderate congestion, never
      enough to raise the fee cap. */
  function NetworkCongestion(): (c: real)
    ensures 0.0 <= c <= HighCongestion
  {
    0.5
  }

  /** `estimate_optimal_gas(base_gas_price)`: the given price, or else the network's
      (`networkGasPrice`, None when reading it raised, which makes the estimate None);
      the fee cap is 120% and the tip 10% of that price, both truncated to an integer. */
  function EstimateOptimalGas(given: Option<nat>, networkGasPrice: Option<nat>): (r: Option<GasParams>)
    ensures r.Some? <==> given.Some? || networkGasPrice.Some?
    ensures r.Some? ==>
      var base := if given.Some? then given.value else networkGasPrice.value;
      && r.value.maxFeePerGas == r.value.maxFeePerGas.Floor as real
      && 5.0 * r.value.maxFeePerGas <= 6.0 * base as real < 5.0 * r.value.maxFeePerGas + 5.0
      && 10 * r.value.maxPriorityFeePerGas <= base < 10 * r.value.maxPriorityFeePerGas + 10
  {
    if given.None? && networkGasPrice.None? then None
    else
      var base := if given.Some? then given.value else networkGasPrice.value;
      var priorityFee := ((base * 6) / 5) as real;
      var congestion := NetworkCongestion();
      var fee := if congestion > HighCongestion then priorityFee * (1.0 + congestion) else priorityFee;
      Some(GasParams(fee, base / 10))
  }

  /** The estimate is a valid EIP-1559 fee pair: the cap is never below the tip, and
      both grow with the price. */
  lemma EstimateIsConsistent(given: Option<nat>, networkGasPrice: Option<nat>, other: nat)
    ensures var r := EstimateOptimalGas(given, networkGasPrice);
      r.Some? ==> r.value.maxFeePerGas >= r.value.maxPriorityFeePerGas as real
    ensures var r := EstimateOptimalGas(given, networkGasPrice);
      var q := EstimateOptimalGas(Some(other), None);
      given.Some? && given.value <= other ==>
        r.value.maxFeePerGas <= q.value.maxFeePerGas
        && r.value.maxPriorityFeePerGas <= q.value.maxPriorityFeePerGas
  {
  }

  // ---------------------------------------------------------------------------
  // send_transaction_with_retry
  // ---------------------------------------------------------------------------

  /** What one attempt ran into: signing or sending raised, the receipt wait raised, or
      the transaction was confirmed with the given receipt. */
  datatype AttemptOutcome = SendFailed | WaitFailed | Confirmed(receipt: string)

  function Pow2(n: nat): (p: nat)
    ensures p >= 1
  {
    if n == 0 then 1 else 2 * Pow2(n - 1)
  }

  /** The sleep that follows attempt `i` of `maxRetries`: `2^i` seconds after a failed
      send, even on the last attempt; after a failed wait only when attempts remain. */
  function SleepAfter(outcome: AttemptOutcome, i: nat, maxRetries: int): seq<nat> {
    match outcome
    case SendFailed => [Pow2(i)]
    case WaitFailed => if i < maxRetries - 1 then [Pow2(i)] else []
    case Confirmed(_) => []
  }

  /** The sleeps of the first `n` attempts, in order. */
  function Backoff(outcomes: seq<AttemptOutcome>, maxRetries: int, n: nat): seq<nat>
    requires n <= |outcomes|
  {
    if n == 0 then [] else Backoff(outcomes, maxRetries, n - 1) + SleepAfter(outcomes[n - 1], n - 1, maxRetries)
  }

  /** The fee fields the transaction carries at attempt `i`: each attempt merges a fresh
      estimate into the caller's dictionary when there is one, so a failed estimate
      leaves the previous fields in place. */
  function GasAt(initial: Option<GasParams>, gasPrices: seq<Option<nat>>, i: nat): Option<GasParams>
    requires i < |gasPrices|
  {
    var estimate := EstimateOptimalGas(None, gasPrices[i]);
    if estimate.Some? then estimate
    else if i == 0 then initial
    else GasAt(initial, gasPrices, i - 1)
  }

  /** `send_transaction_with_retry(transaction, max_retries)`. `gasPrices[i]` is the network
      price read by attempt `i`'s estimate and `outcomes[i]` what that attempt ran into.
      Returns the receipt (None after every attempt failed), the number of attempts, the
      sleeps taken and the fee fields the transaction carried at each attempt. */
  method SendTransactionWithRetry(initial: Option<GasParams>, maxRetries: int,
                                  gasPrices: seq<Option<nat>>, outcomes: seq<AttemptOutcome>)
    returns (receipt: Option<string>, attempts: nat, sleeps: seq<nat>, gasUsed: seq<Option<GasParams>>)
    requires |gasPrices| >= maxRetries && |outcomes| >= maxRetries
    ensures attempts <= maxRetries || attempts == 0
    ensures receipt.Some? <==> exists i :: 0 <= i < maxRetries && outcomes[i].Confirmed?
    ensures receipt.Some? ==>
      && 1 <= attempts && outcomes[attempts - 1] == Confirmed(receipt.value)
      && forall i :: 0 <= i < attempts - 1 ==> !outcomes[i].Confirmed?
    ensures receipt.None? ==> attempts == if maxRetries > 0 then maxRetries else 0
    ensures attempts <= |outcomes| && sleeps == Backoff(outcomes, maxRetries, attempts)
    ensures |gasUsed| == attempts
    ensures forall i :: 0 <= i < attempts ==> gasUsed[i] == GasAt(initial, gasPrices, i)
  {
    receipt, attempts, sleeps, gasUsed := None, 0, [], [];
    var current := initial;
    var attempt := 0;
    while attempt < maxRetries
      invariant 0 <= attempt && (attempt <= maxRetries || attempt == 0)
      invariant attempts == attempt && receipt.None?
      invariant forall i :: 0 <= i < attempt ==> !outcomes[i].Confirmed?
      invariant sleeps == Backoff(outcomes, maxRetries, attempt)
      invariant |gasUsed| == attempt
      invariant forall i :: 0 <= i < attempt ==> gasUsed[i] == GasAt(initial, gasPrices, i)
      invariant attempt == 0 ==> current == initial
      invariant attempt > 0 ==> current == gasUsed[attempt - 1]
      decreases maxRetries - attempt
    {
      var gasParams := EstimateOptimalGas(None, gasPrices[attempt]);
      if gasParams.Some? {
        current := gasParams;
      }
      gasUsed := gasUsed + [current];
      attempts := attempt + 1;
      match outcomes[attempt] {
        case Confirmed(r) =>
          receipt := Some(r);
          assert outcomes[attempt].Confirmed?;
          return;
        case WaitFailed =>
          if attempt < maxRetries - 1 {
            sleeps := sleeps + [Pow2(attempt)];
          }
        case SendFailed =>
          sleeps := sleeps + [Pow2(attempt)];
      }
      attempt := attempt + 1;
    }
  }

  /** Every failed attempt but a last failed wait is followed by a sleep, so a run of
      `n` failed attempts sleeps `n` times, or `n - 1` times when its last attempt was the
      final one and failed waiting; sleep `i` lasts `2^i` seconds. */
  lemma {:induction false} BackoffLength(outcomes: seq<AttemptOutcome>, maxRetries: int, n: nat)
    requires n <= |outcomes| && n <= maxRetries
    requires forall i :: 0 <= i < n ==> !outcomes[i].Confirmed?
    ensures |Backoff(outcomes, maxRetries, n)|
            == if n > 0 && n == maxRetries && outcomes[n - 1] == WaitFailed then n - 1 else n
    ensures forall i :: 0 <= i < |Backoff(outcomes, maxRetries, n)| ==> Backoff(outcomes, maxRetries, n)[i] == Pow2(i)
  {
    if n > 0 {
      BackoffLength(outcomes, maxRetries, n - 1);
    }
  }

  // ---------------------------------------------------------------------------
  // calculate_optimal_bridge_strategy
  // ---------------------------------------------------------------------------

  /** The optional economic factors of a network's configuration. */
  datatype NetworkFactors = NetworkFactors(feeMultiplier: Option<real>, liquidityScore: Option<real>)

  datatype Strategy = Strategy(network: string, priority: real)

  /** `_calculate_bridge_priority(network_name, balance)`: the balance scaled by the fee
      multiplier and divided by the liquidity score, both 1 when absent. None stands for the
      KeyError of an unknown network and the ZeroDivisionError of a zero score. */
  function BridgePriority(networks: map<string, NetworkFactors>, name: string, balance: real): (r: Option<real>)
    ensures r.Some? <==> name in networks && networks[name].liquidityScore.GetOr(1.0) != 0.0
    ensures r.Some? ==>
      r.value * networks[name].liquidityScore.GetOr(1.0) == balance * networks[name].feeMultiplier.GetOr(1.0)
  {
    if name !in networks then None
    else
      var factors := networks[name];
      var networkFeeFactor := factors.feeMultiplier.GetOr(1.0);
      var liquidityFactor := factors.liquidityScore.GetOr(1.0);
      if liquidityFactor == 0.0 then None
      else Some(balance * networkFeeFactor / liquidityFactor)
  }

  predicate Priced(networks: map<string, NetworkFactors>, entry: (string, real)) {
    BridgePriority(networks, entry.0, entry.1).Some?
  }

  /** The loop building one strategy per balance entry, in the dictionary's order. */
  function Strategies(networks: map<string, NetworkFactors>, balances: seq<(string, real)>): (r: Option<seq<Strategy>>)
    ensures r.Some? <==> forall i :: 0 <= i < |balances| ==> Priced(networks, balances[i])
    ensures r.Some? ==>
      && |r.value| == |balances|
      && forall i :: 0 <= i < |balances| ==>
           r.value[i].network == balances[i].0
           && Some(r.value[i].priority) == BridgePriority(networks, balances[i].0, balances[i].1)
  {
    if |balances| == 0 then Some([])
    else
      match BridgePriority(networks, balances[0].0, balances[0].1)
      case None => None
      case Some(p) =>
        match Strategies(networks, balances[1..])
        case None =>
          assert !Priced(networks, balances[1..][0]) || exists i :: 1 <= i < |balances| && !Priced(networks, balances[i]);
          None
        case Some(rest) => Some([Strategy(balances[0].0, p)] + rest)
  }

  /** The position of the first strategy of greatest priority. */
  function FirstBest(ss: seq<Strategy>): (k: nat)
    requires |ss| > 0
    ensures k < |ss|
    ensures forall i :: 0 <= i < |ss| ==> ss[i].priority <= ss[k].priority
    ensures forall i :: 0 <= i < k ==> ss[i].priority < ss[k].priority
  {
    if |ss| == 1 then 0
    else
      var k := FirstBest(ss[..|ss| - 1]);
      if ss[|ss| - 1].priority > ss[k].priority then |ss| - 1 else k
  }

  /** `calculate_optimal_bridge_strategy(current_balances)`: the head of the strategies
      sorted by priority, highest first. The sort is stable under `reverse`, so among equal
      priorities the earliest entry wins. None stands for the IndexError on no balances and
      the errors of the priority. */
  function CalculateOptimalBridgeStrategy(networks: map<string, NetworkFactors>, balances: seq<(string, real)>): (r: Option<Strategy>)
    ensures r.Some? <==> |balances| > 0 && forall i :: 0 <= i < |balances| ==> Priced(networks, balances[i])
    ensures r.Some? ==>
      exists k :: 0 <= k < |balances| && r.value.network == balances[k].0
        && Some(r.value.priority) == BridgePriority(networks, balances[k].0, balances[k].1)
        && (forall i :: 0 <= i < |balances| ==> BridgePriority(networks, balances[i].0, balances[i].1).value <= r.value.priority)
        && (forall i :: 0 <= i < k ==> BridgePriority(networks, balances[i].0, balances[i].1).value < r.value.priority)
  {
    match Strategies(networks, balances)
    case None => None
    case Some(ss) =>
      if |ss| == 0 then None
      else
        var k := FirstBest(ss);
        Some(ss[k])
  }
}
