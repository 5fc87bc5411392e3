/** The transaction side of t3rn-bot.py: nonce choice, the parameters of a bridge
    transaction, the nonce-too-low retry of `send_bridge_transaction`, the RPC fallback of
    `create_web3_with_retry` and the dispatch loop of `process_network_transactions`.
    Every chain call is replaced by the value (or the failure) it produced. */
module Bot {
  import opened Wrappers
  import opened PyStr
  import opened BalanceTracker
  import BridgeDataManager

  /** Amount bridged by every transaction, in ether (registered with the tracker). */
  const ValueEther: real := 0.1
  /** The same amount in wei, as sent in the transaction's `value`. */
  const ValueWei: nat := 100_000_000_000_000_000
  /** One gwei: the priority fee, also added to the base fee for the fee cap. */
  const PriorityFeeWei: nat := 1_000_000_000
  /** Attempts `send_bridge_transaction` makes. */
  const MaxNonceRetries: nat := 3

  datatype Network = Network(name: string, rpcUrl: string, backupRpcUrls: seq<string>,
                             chainId: nat, contractAddress: string)

  // ---------------------------------------------------------------------------
  // Nonce and transaction parameters
  // ---------------------------------------------------------------------------

  /** `get_latest_nonce`: the larger of the pending and the confirmed transaction counts. */
  function LatestNonce(pending: nat, latest: nat): (n: nat)
    ensures n >= pending && n >= latest
    ensures n == pending || n == latest
  {
    if pending >= latest then pending else latest
  }

  /** The two transaction counts one `get_latest_nonce` reads. */
  datatype NonceCounts = NonceCounts(pending: nat, latest: nat)

  datatype Tx = Tx(nonce: nat, to: string, value: nat, gas: nat, maxFeePerGas: nat,
                   maxPriorityFeePerGas: nat, chainId: nat, data: string)

  /** The transaction dictionary built for one attempt. */
  function BuildTx(net: Network, data: string, nonce: nat, gasEstimate: nat, baseFee: nat): Tx {
    var gasLimit := gasEstimate + 1;
    Tx(nonce, net.contractAddress, ValueWei, gasLimit * 2, baseFee + PriorityFeeWei, PriorityFeeWei,
       net.chainId, data)
  }

  // ---------------------------------------------------------------------------
  // send_bridge_transaction
  // ---------------------------------------------------------------------------

  /** An exception inside an attempt, known only by whether its text contains "nonce too low". */
  datatype Failure = Failure(nonceTooLow: bool)

  /** What the chain does during one attempt of the retry loop. */
  datatype Attempt = Attempt(
    signing: Option<Failure>,    // sign_transaction raised
    sourceRead: Option<real>,    // what the tracker's source-balance read returns, if start_bridge makes one
    delivery: Option<Failure>,   // sending, the receipt wait, or the balance and BRN reads after it raised
    txHash: string,              // hex hash of the sent transaction
    refetch: Option<NonceCounts>) // the nonce re-read after a nonce-too-low failure, None when it raised

  /** `(tx_hash, value)` on success, the tracker afterwards, and every transaction built. */
  datatype SendReport = SendReport(result: Option<(string, real)>, tracker: Option<Tracker>, built: seq<Tx>)

  /** The nonce attempt `i` adds its index to: the first read for attempt 0, and the re-read
      made after the previous attempt's failure otherwise (0 when none was made, in which
      case attempt `i` never happens). */
  function BaseNonce(i: nat, first: nat, attempts: seq<Attempt>): nat
    requires i < |attempts|
  {
    if i == 0 then first
    else
      match attempts[i - 1].refetch
      case Some(c) => LatestNonce(c.pending, c.latest)
      case None => 0
  }

  /** The loop goes on after attempt `a` only when it failed with "nonce too low" and the
      nonce could be read again. */
  predicate RetriedAfter(a: Attempt) {
    && a.refetch.Some?
    && (a.signing == Some(Failure(true)) || (a.signing.None? && a.delivery == Some(Failure(true))))
  }

  /** Number of attempts in `lo..hi` that got past signing, each of which registered the
      amount with the tracker before sending. */
  function Signed(attempts: seq<Attempt>, lo: nat, hi: nat): nat
    requires hi <= |attempts|
    decreases hi - lo
  {
    if lo >= hi then 0
    else (if attempts[lo].signing.None? then 1 else 0) + Signed(attempts, lo + 1, hi)
  }

  function Repeat(x: real, n: nat): (r: seq<real>)
    ensures |r| == n
    ensures forall i :: 0 <= i < n ==> r[i] == x
  {
    if n == 0 then [] else [x] + Repeat(x, n - 1)
  }

  /** What attempt `a` did before the loop decides whether to go on: the tracker after the
      registration (made only once signing succeeded) and the failure raised, if any. */
  datatype StepOutcome = StepOutcome(tracker: Option<Tracker>, failure: Option<Failure>)

  /** Signing succeeded, and `start_bridge` then raised its TypeError because the source
      balance was still unknown after its read: the attempt fails without a nonce message. */
  predicate TypeErr(a: Attempt, d: Direction, tracker: Option<Tracker>) {
    && a.signing.None?
    && tracker.Some?
    && tracker.value.Stored(Source(d)).None?
    && a.sourceRead.None?
  }

  /** What registering a bridge in direction `d` leaves alone: the flow state, the clock,
      the destination balance, and a source balance already known. */
  predicate KeepsFlow(t: Tracker, u: Tracker, d: Direction) {
    && u.paused == t.paused
    && u.failedChecks == t.failedChecks
    && u.pauseUntil == t.pauseUntil
    && u.lastCheckTime == t.lastCheckTime
    && u.Stored(Destination(d)) == t.Stored(Destination(d))
    && (t.Stored(Source(d)).Some? ==> u.Stored(Source(d)) == t.Stored(Source(d)))
  }

  function AttemptStep(a: Attempt, d: Direction, tracker: Option<Tracker>): (s: StepOutcome)
    ensures s.tracker.Some? <==> tracker.Some?
    ensures tracker.Some? ==>
      && s.tracker.value.Pending(d) == tracker.value.Pending(d) + (if a.signing.None? then [ValueEther] else [])
      && s.tracker.value.Pending(Other(d)) == tracker.value.Pending(Other(d))
      && KeepsFlow(tracker.value, s.tracker.value, d)
      // an unknown source balance takes the read `start_bridge` makes, once signing succeeded
      && (tracker.value.Stored(Source(d)).None? ==>
            s.tracker.value.Stored(Source(d)) == if a.signing.None? then a.sourceRead else None)
      // the monitoring flag is set by a registration whose progress lines printed
      && s.tracker.value.monitoringActive
         == (tracker.value.monitoringActive || (a.signing.None? && !TypeErr(a, d, tracker)))
    // the attempt succeeds exactly when nothing raised: not signing, not the tracker, not the send
    ensures s.failure.None? <==> a.signing.None? && a.delivery.None? && !TypeErr(a, d, tracker)
    // and fails with "nonce too low" exactly when signing or the send said so
    ensures s.failure == Some(Failure(true)) <==>
      || a.signing == Some(Failure(true))
      || (a.signing.None? && !TypeErr(a, d, tracker) && a.delivery == Some(Failure(true)))
  {
    if a.signing.Some? then StepOutcome(tracker, a.signing)
    else if tracker.Some? then
      var started := StartBridge(tracker.value, ValueEther, Source(d), Destination(d), a.sourceRead);
      // formatting an unknown source balance raises a TypeError: not a nonce failure
      StepOutcome(Some(started.tracker), if started.raised then Some(Failure(false)) else a.delivery)
    else StepOutcome(tracker, a.delivery)
  }

  /** The tracker after the steps of attempts `lo..hi`, starting from `tracker`. */
  function Steps(tracker: Option<Tracker>, d: Direction, attempts: seq<Attempt>, lo: nat, hi: nat): Option<Tracker>
    requires hi <= |attempts|
    decreases hi - lo
  {
    if lo >= hi then tracker else Steps(AttemptStep(attempts[lo], d, tracker).tracker, d, attempts, lo + 1, hi)
  }

  /** The loop goes on after attempt `k`: it failed with "nonce too low", it was not the
      last of the three, and the nonce could be read again. */
  predicate Continues(k: nat, d: Direction, tracker: Option<Tracker>, attempts: seq<Attempt>)
    requires k < |attempts|
  {
    var step := AttemptStep(attempts[k], d, tracker);
    step.failure.Some? && step.failure.value.nonceTooLow && k < MaxNonceRetries - 1 && attempts[k].refetch.Some?
  }

  /** Attempt `k` of the retry loop and the ones after it; `built` holds the transactions
      of attempts `0..k`. */
  function Retry(k: nat, nonce: nat, net: Network, data: string, d: Direction, gasEstimate: nat, baseFee: nat,
                 first: nat, tracker: Option<Tracker>, built: seq<Tx>, attempts: seq<Attempt>): (r: SendReport)
    requires k < MaxNonceRetries <= |attempts|
    requires |built| == k
    requires nonce == BaseNonce(k, first, attempts)
    ensures k < |r.built| <= MaxNonceRetries
    ensures forall i :: 0 <= i < k ==> r.built[i] == built[i]
    ensures forall i :: k <= i < |r.built| ==>
      r.built[i] == BuildTx(net, data, BaseNonce(i, first, attempts) + i, gasEstimate, baseFee)
    ensures forall i :: k <= i < |r.built| - 1 ==> RetriedAfter(attempts[i])
    // every attempt but the last went on, the last did not, and the call succeeds exactly
    // when the last attempt raised nothing
    ensures forall i :: k <= i < |r.built| - 1 ==> Continues(i, d, Steps(tracker, d, attempts, k, i), attempts)
    ensures !Continues(|r.built| - 1, d, Steps(tracker, d, attempts, k, |r.built| - 1), attempts)
    ensures r.result.Some? <==>
      AttemptStep(attempts[|r.built| - 1], d, Steps(tracker, d, attempts, k, |r.built| - 1)).failure.None?
    ensures r.result.Some? ==>
      && r.result.value == (attempts[|r.built| - 1].txHash, ValueEther)
      && attempts[|r.built| - 1].signing.None? && attempts[|r.built| - 1].delivery.None?
    ensures r.tracker == Steps(tracker, d, attempts, k, |r.built|)
    decreases MaxNonceRetries - k
  {
    var a := attempts[k];
    var built' := built + [BuildTx(net, data, nonce + k, gasEstimate, baseFee)];
    var step := AttemptStep(a, d, tracker);
    if step.failure.None? then SendReport(Some((a.txHash, ValueEther)), step.tracker, built')
    else if step.failure.value.nonceTooLow && k < MaxNonceRetries - 1 && a.refetch.Some? then
      Retry(k + 1, LatestNonce(a.refetch.value.pending, a.refetch.value.latest), net, data, d,
            gasEstimate, baseFee, first, step.tracker, built', attempts)
    else SendReport(None, step.tracker, built')
  }

  /** Over attempts `lo..hi` the tracker gains one 0.1 entry per attempt that got past
      signing, in the bridge's direction only. */
  lemma {:induction false} StepsRegisterSigned(tracker: Option<Tracker>, d: Direction, attempts: seq<Attempt>,
                                               lo: nat, hi: nat)
    requires lo <= hi <= |attempts|
    ensures var t := Steps(tracker, d, attempts, lo, hi);
      && (t.Some? <==> tracker.Some?)
      && (tracker.Some? ==>
            && t.value.Pending(d) == tracker.value.Pending(d) + Repeat(ValueEther, Signed(attempts, lo, hi))
            && t.value.Pending(Other(d)) == tracker.value.Pending(Other(d))
            && KeepsFlow(tracker.value, t.value, d)
            && (tracker.value.monitoringActive ==> t.value.monitoringActive))
    decreases hi - lo
  {
    if lo < hi {
      var step := AttemptStep(attempts[lo], d, tracker);
      StepsRegisterSigned(step.tracker, d, attempts, lo + 1, hi);
      if tracker.Some? {
        var mark: seq<real> := if attempts[lo].signing.None? then [ValueEther] else [];
        RepeatSigned(attempts, lo, hi);
        var rest := Repeat(ValueEther, Signed(attempts, lo + 1, hi));
        assert (tracker.value.Pending(d) + mark) + rest == tracker.value.Pending(d) + (mark + rest);
      }
    }
  }

  lemma RepeatSigned(attempts: seq<Attempt>, k: nat, hi: nat)
    requires k < hi <= |attempts|
    ensures Repeat(ValueEther, Signed(attempts, k, hi))
            == (if attempts[k].signing.None? then [ValueEther] else []) + Repeat(ValueEther, Signed(attempts, k + 1, hi))
  {
  }

  /** `send_bridge_transaction(...)` sending in direction `d`. `nonceCounts`, `gasEstimate`
      and `baseFee` are the results of the reads made before the loop (None when the read
      raised); `attempts` says what happens in each attempt. */
  function SendBridgeTransaction(net: Network, data: string, d: Direction, tracker: Option<Tracker>,
                                 nonceCounts: Option<NonceCounts>, gasEstimate: Option<nat>, baseFee: Option<nat>,
                                 attempts: seq<Attempt>): (r: SendReport)
    requires |attempts| >= MaxNonceRetries
    // any failure before the loop returns (None, None) having built and registered nothing
    ensures nonceCounts.None? || gasEstimate.None? || baseFee.None? ==> r == SendReport(None, tracker, [])
    ensures nonceCounts.Some? && gasEstimate.Some? && baseFee.Some? ==>
      var first := LatestNonce(nonceCounts.value.pending, nonceCounts.value.latest);
      && 1 <= |r.built| <= MaxNonceRetries
      // attempt i: 0.1 ether, twice the estimate plus one as gas, base fee plus one gwei as
      // fee cap, one gwei as tip, and nonce + i on the nonce current at that attempt
      && (forall i :: 0 <= i < |r.built| ==>
            && r.built[i].value == ValueWei
            && r.built[i].gas == 2 * (gasEstimate.value + 1)
            && r.built[i].maxFeePerGas == baseFee.value + PriorityFeeWei
            && r.built[i].maxPriorityFeePerGas == PriorityFeeWei
            && r.built[i].to == net.contractAddress
            && r.built[i].chainId == net.chainId
            && r.built[i].data == data
            && r.built[i].nonce == BaseNonce(i, first, attempts) + i)
      && (forall i :: 0 <= i < |r.built| - 1 ==> RetriedAfter(attempts[i]))
      // the loop goes on after every attempt but the last, stops after the last, and
      // returns the hash exactly when the last attempt raised nothing
      && (forall i :: 0 <= i < |r.built| - 1 ==> Continues(i, d, Steps(tracker, d, attempts, 0, i), attempts))
      && !Continues(|r.built| - 1, d, Steps(tracker, d, attempts, 0, |r.built| - 1), attempts)
      && (r.result.Some? <==>
            AttemptStep(attempts[|r.built| - 1], d, Steps(tracker, d, attempts, 0, |r.built| - 1)).failure.None?)
      && (r.result.Some? ==>
            && r.result.value == (attempts[|r.built| - 1].txHash, ValueEther)
            && attempts[|r.built| - 1].signing.None? && attempts[|r.built| - 1].delivery.None?)
      // every attempt past signing registered 0.1 with the tracker, even when sending then failed
      && (tracker.Some? ==>
            && r.tracker.Some?
            && r.tracker.value.Pending(d) == tracker.value.Pending(d) + Repeat(ValueEther, Signed(attempts, 0, |r.built|))
            && r.tracker.value.Pending(Other(d)) == tracker.value.Pending(Other(d))
            && KeepsFlow(tracker.value, r.tracker.value, d))
      && (tracker.None? ==> r.tracker.None?)
      && r.tracker == Steps(tracker, d, attempts, 0, |r.built|)
  {
    match (nonceCounts, gasEstimate, baseFee)
    case (Some(c), Some(g), Some(b)) =>
      var first := LatestNonce(c.pending, c.latest);
      var r := Retry(0, first, net, data, d, g, b, first, tracker, [], attempts);
      StepsRegisterSigned(tracker, d, attempts, 0, |r.built|);
      assert forall i :: 0 <= i < |r.built| ==>
        r.built[i] == BuildTx(net, data, BaseNonce(i, first, attempts) + i, g, b);
      r
    case _ => SendReport(None, tracker, [])
  }

  /** The nonce of attempt `i` is at least the count read for it plus `i`: the first read for
      attempt 0, the re-read after the previous failure otherwise. Nothing makes the nonces
      grow from one attempt to the next, since a re-read may return smaller counts. */
  lemma AttemptNoncesUseIndex(net: Network, data: string, d: Direction, tracker: Option<Tracker>,
                              c: NonceCounts, g: nat, b: nat, attempts: seq<Attempt>)
    requires |attempts| >= MaxNonceRetries
    ensures var r := SendBridgeTransaction(net, data, d, tracker, Some(c), Some(g), Some(b), attempts);
      && r.built[0].nonce >= c.pending && r.built[0].nonce >= c.latest
      && forall i :: 1 <= i < |r.built| ==>
           r.built[i].nonce >= attempts[i - 1].refetch.value.pending + i
           && r.built[i].nonce >= attempts[i - 1].refetch.value.latest + i
  {
    var r := SendBridgeTransaction(net, data, d, tracker, Some(c), Some(g), Some(b), attempts);
    forall i | 1 <= i < |r.built|
      ensures r.built[i].nonce >= attempts[i - 1].refetch.value.pending + i
      ensures r.built[i].nonce >= attempts[i - 1].refetch.value.latest + i
    {
      assert RetriedAfter(attempts[i - 1]);
    }
  }

  /** A first attempt that raises nothing ends the call: one transaction, and its hash
      with 0.1 ether. */
  lemma CleanFirstAttemptSucceeds(net: Network, data: string, d: Direction, tracker: Option<Tracker>,
                                  c: NonceCounts, g: nat, b: nat, attempts: seq<Attempt>)
    requires |attempts| >= MaxNonceRetries
    requires attempts[0].signing.None? && attempts[0].delivery.None? && !TypeErr(attempts[0], d, tracker)
    ensures var r := SendBridgeTransaction(net, data, d, tracker, Some(c), Some(g), Some(b), attempts);
      r.result == Some((attempts[0].txHash, ValueEther)) && |r.built| == 1
  {
    var r := SendBridgeTransaction(net, data, d, tracker, Some(c), Some(g), Some(b), attempts);
    assert Steps(tracker, d, attempts, 0, 0) == tracker;
    assert !Continues(0, d, Steps(tracker, d, attempts, 0, 0), attempts);
  }

  /** A first attempt that fails with "nonce too low" and can read the nonce again is
      retried, on the re-read nonce plus one. */
  lemma NonceTooLowFirstAttemptRetries(net: Network, data: string, d: Direction, tracker: Option<Tracker>,
                                       c: NonceCounts, g: nat, b: nat, attempts: seq<Attempt>)
    requires |attempts| >= MaxNonceRetries
    requires attempts[0].signing == Some(Failure(true)) || (attempts[0].signing.None? && !TypeErr(attempts[0], d, tracker) && attempts[0].delivery == Some(Failure(true)))
    requires attempts[0].refetch.Some?
    ensures var r := SendBridgeTransaction(net, data, d, tracker, Some(c), Some(g), Some(b), attempts);
      && |r.built| >= 2
      && r.built[1].nonce == LatestNonce(attempts[0].refetch.value.pending, attempts[0].refetch.value.latest) + 1
  {
    var r := SendBridgeTransaction(net, data, d, tracker, Some(c), Some(g), Some(b), attempts);
    assert Continues(0, d, Steps(tracker, d, attempts, 0, 0), attempts);
  }

  // ---------------------------------------------------------------------------
  // create_web3_with_retry
  // ---------------------------------------------------------------------------

  /** The first URL of `urls` that `connects` accepts. */
  function FirstConnecting(urls: seq<string>, connects: string -> bool): (r: Option<string>)
    ensures r.Some? <==> exists i :: 0 <= i < |urls| && connects(urls[i])
    ensures r.Some? ==> exists i :: 0 <= i < |urls| && urls[i] == r.value && connects(urls[i])
                                    && forall j :: 0 <= j < i ==> !connects(urls[j])
  {
    if |urls| == 0 then None
    else if connects(urls[0]) then Some(urls[0])
    else FirstConnecting(urls[1..], connects)
  }

  /** `create_web3_with_retry(network)`: the primary URL, then the backups in list order;
      `connects(u)` says whether a client on `u` reports itself connected (a construction
      that raises counts as not connected). None stands for the exception raised when no
      URL connects. */
  function CreateWeb3WithRetry(net: Network, connects: string -> bool): (r: Option<string>)
    ensures r == FirstConnecting([net.rpcUrl] + net.backupRpcUrls, connects)
    ensures r.None? <==> !connects(net.rpcUrl) && forall u :: u in net.backupRpcUrls ==> !connects(u)
  {
    if connects(net.rpcUrl) then Some(net.rpcUrl)
    else
      assert ([net.rpcUrl] + net.backupRpcUrls)[1..] == net.backupRpcUrls;
      FirstConnecting(net.backupRpcUrls, connects)
  }

  // ---------------------------------------------------------------------------
  // process_network_transactions
  // ---------------------------------------------------------------------------

  /** How many transactions per chain the user asked for; a random range stops at its
      lower bound, since the loop compares against `min_tx`. */
  datatype TxCount = Fixed(count: int) | RandomRange(low: int, high: int) | Infinite

  /** The loop's stop rule: a bounded count is reached. */
  predicate Reached(mode: TxCount, currentTx: int) {
    match mode
    case Fixed(n) => currentTx >= n
    case RandomRange(lo, _) => currentTx >= lo
    case Infinite => false
  }

  /** The direction a network sends in: OP -> Base when its name contains "OP". */
  function DirectionOf(networkName: string): Direction {
    if Contains(networkName, "OP") then OpToBase else BaseToOp
  }

  /** The template key a network uses. */
  function BridgeType(networkName: string): string {
    if DirectionOf(networkName) == OpToBase then BridgeDataManager.OpKey else BridgeDataManager.BaseKey
  }

  /** One pass of the inner loop over `bridges`: the templates fetched for it and whether
      the send returned a hash. */
  datatype BridgeTurn = BridgeTurn(bridgeData: map<string, string>, sent: bool)

  /** One account's turn in a round: its tracker's pause flag, and one pass per bridge. */
  datatype AccountTurn = AccountTurn(paused: bool, bridges: seq<BridgeTurn>)

  /** The pass reaches `send_bridge_transaction`: a non-empty template exists for the
      network's direction. */
  predicate Sends(networkName: string, pass: BridgeTurn) {
    && |pass.bridgeData| > 0
    && BridgeType(networkName) in pass.bridgeData
    && pass.bridgeData[BridgeType(networkName)] != ""
  }

  /** Successful sends of one running account's passes, counted as the inner loop does. */
  function BridgeSuccesses(networkName: string, passes: seq<BridgeTurn>): (n: nat)
    ensures n <= |passes|
  {
    if |passes| == 0 then 0
    else
      var rest := BridgeSuccesses(networkName, passes[1..]);
      var pass := passes[0];
      if |pass.bridgeData| == 0 then rest
      else if BridgeType(networkName) !in pass.bridgeData || pass.bridgeData[BridgeType(networkName)] == "" then rest
      else if pass.sent then 1 + rest
      else rest
  }

  /** Successful sends of one round over all accounts; a paused account is skipped whole. */
  function RoundSuccesses(networkName: string, turns: seq<AccountTurn>): (n: nat)
    ensures n == 0 <== forall i :: 0 <= i < |turns| ==> turns[i].paused
  {
    if |turns| == 0 then 0
    else
      var rest := RoundSuccesses(networkName, turns[1..]);
      if turns[0].paused then rest
      else BridgeSuccesses(networkName, turns[0].bridges) + rest
  }

  /** A round's count is the sum of its turns' counts, so it can be split anywhere. */
  lemma {:induction false} RoundSuccessesAdditive(networkName: string, front: seq<AccountTurn>, back: seq<AccountTurn>)
    ensures RoundSuccesses(networkName, front + back)
            == RoundSuccesses(networkName, front) + RoundSuccesses(networkName, back)
    decreases |front|
  {
    if |front| > 0 {
      assert (front + back)[1..] == front[1..] + back;
      RoundSuccessesAdditive(networkName, front[1..], back);
    } else {
      assert front + back == back;
    }
  }

  /** The same for the passes of one account. */
  lemma {:induction false} BridgeSuccessesAdditive(networkName: string, front: seq<BridgeTurn>, back: seq<BridgeTurn>)
    ensures BridgeSuccesses(networkName, front + back)
            == BridgeSuccesses(networkName, front) + BridgeSuccesses(networkName, back)
    decreases |front|
  {
    if |front| > 0 {
      assert (front + back)[1..] == front[1..] + back;
      BridgeSuccessesAdditive(networkName, front[1..], back);
    } else {
      assert front + back == back;
    }
  }

  /** A paused account contributes nothing, whatever its sends would have done; a running
      one contributes its passes' count. */
  lemma TurnCountsOnlyRunning(networkName: string, turn: AccountTurn)
    ensures RoundSuccesses(networkName, [turn]) == if turn.paused then 0 else BridgeSuccesses(networkName, turn.bridges)
  {
    assert [turn][1..] == [];
  }

  /** One pass counts exactly when it reaches the send and the send returned a hash. */
  lemma PassCountsOnlySends(networkName: string, pass: BridgeTurn)
    ensures BridgeSuccesses(networkName, [pass]) == if Sends(networkName, pass) && pass.sent then 1 else 0
  {
    assert [pass][1..] == [];
  }

  /** The passes that reach the send and get a hash back, in order. */
  function SentPasses(networkName: string, passes: seq<BridgeTurn>): (r: seq<BridgeTurn>)
    ensures forall p :: p in r <==> p in passes && Sends(networkName, p) && p.sent
  {
    if |passes| == 0 then []
    else
      var rest := SentPasses(networkName, passes[1..]);
      assert forall p :: p in passes <==> p == passes[0] || p in passes[1..];
      if Sends(networkName, passes[0]) && passes[0].sent then [passes[0]] + rest else rest
  }

  /** The passes of the accounts that are not paused, account after account. */
  function RunningPasses(turns: seq<AccountTurn>): seq<BridgeTurn> {
    if |turns| == 0 then []
    else if turns[0].paused then RunningPasses(turns[1..])
    else turns[0].bridges + RunningPasses(turns[1..])
  }

  /** The inner loop's count is the number of passes that send and get a hash. */
  lemma {:induction false} BridgeSuccessesCountsSent(networkName: string, passes: seq<BridgeTurn>)
    ensures BridgeSuccesses(networkName, passes) == |SentPasses(networkName, passes)|
    decreases |passes|
  {
    if |passes| > 0 {
      BridgeSuccessesCountsSent(networkName, passes[1..]);
    }
  }

  /** A round's count is the number of passes of running accounts that send and get a hash. */
  lemma {:induction false} RoundSuccessesCountsSent(networkName: string, turns: seq<AccountTurn>)
    ensures RoundSuccesses(networkName, turns) == |SentPasses(networkName, RunningPasses(turns))|
    decreases |turns|
  {
    if |turns| == 0 {
      BridgeSuccessesCountsSent(networkName, []);
    } else {
      RoundSuccessesCountsSent(networkName, turns[1..]);
      BridgeSuccessesCountsSent(networkName, RunningPasses(turns[1..]));
      BridgeSuccessesCountsSent(networkName, RunningPasses(turns));
      if !turns[0].paused {
        BridgeSuccessesAdditive(networkName, turns[0].bridges, RunningPasses(turns[1..]));
        BridgeSuccessesCountsSent(networkName, turns[0].bridges);
      }
    }
  }

  /** Successful sends over a sequence of rounds. */
  function TotalSuccesses(networkName: string, rounds: seq<seq<AccountTurn>>): nat {
    if |rounds| == 0 then 0 else RoundSuccesses(networkName, rounds[0]) + TotalSuccesses(networkName, rounds[1..])
  }

  datatype DispatchOutcome = DispatchOutcome(successfulTxs: nat, currentTx: int, roundsRun: nat)

  /** The `while True` loop: stop once the count is reached, otherwise run a round over all
      accounts and count it. `rounds` supplies what each round sees; an infinite run is
      followed for as many rounds as are supplied. */
  function RunRounds(networkName: string, mode: TxCount, successfulTxs: nat, currentTx: int,
                     rounds: seq<seq<AccountTurn>>): (r: DispatchOutcome)
    ensures r.roundsRun <= |rounds|
    ensures r.currentTx == currentTx + r.roundsRun
    ensures r.successfulTxs == successfulTxs + TotalSuccesses(networkName, rounds[..r.roundsRun])
    ensures r.roundsRun < |rounds| ==> Reached(mode, r.currentTx)
    ensures forall c :: currentTx <= c < r.currentTx ==> !Reached(mode, c)
    decreases |rounds|
  {
    if Reached(mode, currentTx) || |rounds| == 0 then DispatchOutcome(successfulTxs, currentTx, 0)
    else
      var next := RunRounds(networkName, mode, successfulTxs + RoundSuccesses(networkName, rounds[0]),
                            currentTx + 1, rounds[1..]);
      assert rounds[..next.roundsRun + 1][1..] == rounds[1..][..next.roundsRun];
      DispatchOutcome(next.successfulTxs, next.currentTx, next.roundsRun + 1)
  }

  /** `process_network_transactions(...)` for network `net`: no connection means the counters
      come back unchanged; otherwise the rounds run until the count is reached. */
  function ProcessNetworkTransactions(net: Network, connects: string -> bool, stillConnected: bool, mode: TxCount,
                                      successfulTxs: nat, currentTx: int, rounds: seq<seq<AccountTurn>>): (r: DispatchOutcome)
    ensures CreateWeb3WithRetry(net, connects).None? || !stillConnected ==>
      r == DispatchOutcome(successfulTxs, currentTx, 0)
    ensures r.currentTx == currentTx + r.roundsRun && r.roundsRun <= |rounds|
    ensures r.successfulTxs == successfulTxs + TotalSuccesses(net.name, rounds[..r.roundsRun])
    ensures CreateWeb3WithRetry(net, connects).Some? && stillConnected ==>
      && (r.roundsRun < |rounds| ==> Reached(mode, r.currentTx))
      && forall c :: currentTx <= c < r.currentTx ==> !Reached(mode, c)
  {
    if CreateWeb3WithRetry(net, connects).None? || !stillConnected then
      assert rounds[..0] == [];
      DispatchOutcome(successfulTxs, currentTx, 0)
    else RunRounds(net.name, mode, successfulTxs, currentTx, rounds)
  }

  /** A bounded count with enough rounds supplied stops exactly at the bound. */
  lemma {:induction false} BoundedRunStopsAtBound(networkName: string, bound: int, high: int, successfulTxs: nat,
                                                  currentTx: int, rounds: seq<seq<AccountTurn>>, random: bool)
    requires currentTx + |rounds| >= bound
    ensures var mode := if random then RandomRange(bound, high) else Fixed(bound);
      var r := RunRounds(networkName, mode, successfulTxs, currentTx, rounds);
      r.currentTx == if currentTx >= bound then currentTx else bound
    decreases |rounds|
  {
    var mode := if random then RandomRange(bound, high) else Fixed(bound);
    if currentTx < bound {
      BoundedRunStopsAtBound(networkName, bound, high, successfulTxs + RoundSuccesses(networkName, rounds[0]),
                             currentTx + 1, rounds[1..], random);
    }
  }
}
