# t3rn bridge bot — a Dafny model of its bridge-completion tracker and send path

The bot moves 0.1 ETH at a time between OP Sepolia and Base Sepolia through the t3rn
bridge contracts. It sends each transfer with calldata copied from a recent transaction on
the explorer. A per-wallet balance tracker records every transfer as pending. It then
watches the destination chain's balance to decide when transfers have landed, and pauses
the wallet after repeated checks that see nothing arrive.

This project models that core as pure Dafny functions over immutable state, with one
module per part of the program:

- `BalanceTracker` (data_bridge.py): the tracker, `Tracker`. It covers
  - registering a transfer (`StartBridge`);
  - the three-try balance read (`UpdateBalance`);
  - one check cycle (`CheckAllBridges`) with its Running/Paused flow rule;
  - one iteration of the monitor loop (`MonitorTick`).
- `TemplateRefresh` (data_bridge.py): `update_bridge_data`, which refreshes the two
  fallback calldata templates from explorer replies.
- `BridgeDataManager` (bridge_data_manager.py) has three parts:
  - the selection of a template from the explorer's list, by length, selector and chain tag;
  - writing the wallet's address into a template at characters 162..201;
  - the per-direction map `get_updated_bridge_data` returns.

  A template is a call encoded per the Solidity Contract ABI Specification: "0x", the
  4-byte selector, then 64-digit argument words.
- `Bot` (t3rn-bot.py) covers:
  - the nonce choice;
  - the transaction parameters;
  - the nonce-too-low retry of `send_bridge_transaction`, including its registration with
    the tracker;
  - the RPC fallback of `create_web3_with_retry`;
  - the stop rule and success count of `process_network_transactions`.
- `TransactionManager` (transaction_manager.py) covers:
  - the fee estimate;
  - the send-and-wait retry with exponential backoff;
  - the choice of the network of highest bridge priority.
- `PyStr` and `Wrappers`: the Python string operations used (clamped slices, `in`,
  `startswith`, ASCII `lower`) and `Option`.

Every read from a chain, the explorer or the clock is a parameter. In one attempt of
`send_bridge_transaction`, the reads made after the receipt arrives (the wallet balance
and `get_brn_balance`, t3rn-bot.py:125-129) raise into the same handler as sending does.
They therefore count as failures of the attempt's delivery: a mined transaction whose
follow-up read fails returns (None, None) and is not counted as a success.

An operation that may raise returns `Option` or an outcome record, so that each error
path of the code is a branch of the model.

### How the tracker settles transfers

The tracker does not match amounts to balance rises:
- it clears entries only when the destination balance rose by at least 0.09 ETH over the
  last committed balance of that chain, an unknown committed balance counting as 0;
- when it does, it clears EVERY pending entry of that direction (`ResolveDirection`,
  `CheckOnlyDrains`);
- a rise below 0.09 clears nothing, whatever the amounts.

The code has four further behaviours that the model keeps:
- `start_bridge` registers the amount after signing and before sending. Every attempt
  that got past signing therefore leaves a 0.1 entry, even if sending then failed or was
  retried (`SendBridgeTransaction`).
- A check stores the new balances only on some exits. It skips storing them when it is
  paused, and when it enters a pause. The next check then measures from the older balances.
- A `random` transaction count stops at its lower bound, because the loop compares with
  `min_tx`.
- `start_bridge` sets `monitoring_active` before it calls `start_monitoring`, so that call
  always finds the flag set and does nothing (`StartBridgeNeverStartsMonitor`). The monitor
  clock is started only by the explicit `start_monitoring` of the setup.

## Model

| member | source | states |
|---|---|---|
| `BalanceTracker.StartBridge` | data_bridge.py:126-147 | The amount is appended to the direction from→to, and only that list changes. An unknown source balance takes the one read made. The other chain's balance, the counters, the pause state and the monitor clock are untouched. The call raises exactly when the source balance is still unknown after the read. The monitoring flag is set exactly when the call did not raise. Equal chains raise with no change. |
| `BalanceTracker.UpdateBalance` | data_bridge.py:106-124 | With no client: None and no read. Otherwise at most 3 reads. The answer is the first successful read, and every earlier read failed. None means all 3 reads failed. |
| `BalanceTracker.UpdateBalanceIsFirstRead` | data_bridge.py:112-124 | Any result meeting the read loop's contract equals the first successful outcome among the first three. |
| `BalanceTracker.IndexOf` | data_bridge.py:218 | The position `list.remove` finds: it holds the value and no earlier position does. |
| `BalanceTracker.RemoveFirst` | data_bridge.py:218 | `list.remove` drops the first occurrence of the value and keeps the rest in order; the length drops by one and the multiset loses one copy. |
| `BalanceTracker.Scan` | data_bridge.py:211-237 | The per-amount loop over a copy of the list. A rise of 0.09 or more removes exactly the snapshot's elements, as a multiset, and sets the detected flag when the snapshot was non-empty. A smaller rise changes nothing. |
| `BalanceTracker.ResolveDirection` | data_bridge.py:211-237 | One direction ends empty when the destination rose by at least 0.09 over the committed balance (unknown counts as 0). Otherwise it is unchanged. It reports a change iff it had entries and the rise sufficed. |
| `BalanceTracker.CheckAllBridges` | data_bridge.py:188-279 | Either reading unknown: no change. Each direction is settled by its destination chain alone. Paused: drained or pause over → resume with counter 0; otherwise stay paused. Running with no confirmation and entries left: counter +1, and at 2 a pause until now+300 s. No balances are committed on any paused or pause-entry exit. Otherwise both readings are committed, and a confirmation or drain resets the counter. The check clock and the monitoring flag are never changed. |
| `BalanceTracker.MonitorTick` | data_bridge.py:150-166 | Before 60 s have passed: nothing. After: the time is recorded. With nothing pending that is all that changes. With entries pending it is one check. |
| `BalanceTracker.SetChainWeb3` | data_bridge.py:100-104 | A balance still unknown takes the read made through the new client; a known one is kept. Nothing else changes. |
| `BalanceTracker.SetChainWeb3Settles` | data_bridge.py:100-104 | Once the balance is known, setting the client again reads nothing. |
| `BalanceTracker.StartMonitoring` | data_bridge.py:168-178 | With the flag clear, the flag is set and the check interval starts now; with it set, nothing changes. |
| `BalanceTracker.StartMonitoringIdempotent` | data_bridge.py:168-178 | A second start does not move the interval's start. |
| `BalanceTracker.StopMonitoring` | data_bridge.py:180-183 | Clears the flag and nothing else. |
| `BalanceTracker.RestartResetsClock` | data_bridge.py:168-183 | Stopping then starting restarts the interval at the new time. |
| `BalanceTracker.StartBridgeNeverStartsMonitor` | data_bridge.py:138-147 | The `start_monitoring` call inside `start_bridge` finds the flag already set and changes nothing. |
| `BalanceTracker.FreshMonitorWaits` | data_bridge.py:150-178 | A freshly started monitor checks nothing until 60 s have passed. |
| `BalanceTracker.SetUp` | t3rn-bot.py:373-377 | Each account starts with both balances as read through their clients, nothing pending, running, and the monitor clock at the setup time. |
| `BalanceTracker.InitialSatisfiesFlowInvariant` | data_bridge.py:84-98 | The fresh tracker is running with fewer than 2 failed checks. |
| `BalanceTracker.StartBridgePreservesFlowInvariant` | data_bridge.py:126-136 | Registering never breaks "paused iff 2 failed checks". |
| `BalanceTracker.CheckPreservesFlowInvariant` | data_bridge.py:242-272 | A check keeps "running ⇒ fewer than 2 failures, paused ⇒ exactly 2". |
| `BalanceTracker.TickPreservesFlowInvariant` | data_bridge.py:150-166 | A monitor tick keeps the same invariant. |
| `BalanceTracker.CheckOnlyDrains` | data_bridge.py:211-240 | A check never adds entries: each direction keeps its list or loses all of it. |
| `BalanceTracker.RegisteredAmountSurvivesWithoutRise` | data_bridge.py:126-237 | A registered amount stays pending through a check whose destination reading did not rise enough, whatever the source chain reads. |
| `BalanceTracker.TwoFailedChecksPause` | data_bridge.py:259-277 | From a clean running state with entries pending, two checks without a sufficient rise pause the tracker until the second check's time plus 300 s. Nothing is removed, and the balances are the first check's readings. |
| `BalanceTracker.PauseExpires` | data_bridge.py:242-257 | A paused tracker whose pause has run out resumes on the next check with its counter cleared, even with entries pending. |
| `TemplateRefresh.FirstUsable` | data_bridge.py:29-38 | It finds a template iff some transaction has status '1' and a raw-or-plain input of at least 100 characters. The template is the first such input. |
| `TemplateRefresh.RefreshOne` | data_bridge.py:22-40 | A request error or non-200 status keeps the template. A 200 without `items` is the KeyError. A 200 with items installs the first usable input, or keeps the old one when there is none. |
| `TemplateRefresh.UpdateBridgeData` | data_bridge.py:15-70 | Each template is decided by its own chain's reply. A KeyError on the OP side returns False before Base is fetched. The result is True iff neither side raised. |
| `TemplateRefresh.RefreshInstallsOnlyUsable` | data_bridge.py:25-61 | A template only changes to the input of a successful transaction from that chain's reply, at least 100 characters long. |
| `PyStr.Slice` | bridge_data_manager.py:48-52 | Python slicing with clamped bounds: its length, and agreement with the exact slice when the bounds are in range. |
| `PyStr.Lower` | bridge_data_manager.py:43 | `lower()` keeps the length and lowers each ASCII capital. |
| `PyStr.ContainsSameLength` | bridge_data_manager.py:29-30 | `tag in raw[10:18]` with an 8-character tag and an 8-character slice is equality. |
| `BridgeDataManager.QualifiesExactly` | bridge_data_manager.py:26-30 | An input is accepted iff it is 458 characters long, starts with "0x56591d59", and carries at 10..18 the chain tag of the contract asked about. "62737370" is for OP and "6f707370" for Base; any other contract accepts nothing. |
| `BridgeDataManager.FirstQualifying` | bridge_data_manager.py:25-33 | It finds an input iff some item qualifies. The result is the first qualifying item. |
| `BridgeDataManager.LatestTxInput` | bridge_data_manager.py:14-37 | A failed request, or a missing or empty `items`, gives None. Otherwise the result is the first qualifying `raw_input`. Any result qualifies for that contract. |
| `BridgeDataManager.Patch` | bridge_data_manager.py:39-58 | The result length follows clamped slicing. On a 458-character template and a 42-character address, characters 162..201 become the lower-cased address without "0x" and every other character is kept. |
| `BridgeDataManager.PatchIdempotent` | bridge_data_manager.py:39-54 | Writing the same address twice is writing it once. |
| `BridgeDataManager.PatchKeepsQualification` | bridge_data_manager.py:39-54 | A patched template passes the selection test exactly when the original did. |
| `BridgeDataManager.UpdatedBridgeData` | bridge_data_manager.py:60-80 | The map has key "OP - BASE" iff an OP template was found, and "BASE - OP" likewise for Base. Each value is that template patched with the wallet. It has no other keys. |
| `BridgeDataManager.UpdatedBridgeDataWellFormed` | bridge_data_manager.py:60-80 | Every value handed out is a full-length call for its own direction, carrying the wallet's lower-cased address. |
| `Bot.LatestNonce` | t3rn-bot.py:68-72 | The nonce is one of the pending and confirmed counts, and at least both. |
| `Bot.AttemptStep` | t3rn-bot.py:112-122 | An attempt registers 0.1 in its own direction exactly when signing succeeded. It succeeds exactly when signing, the tracker's progress line and delivery all raised nothing; the progress line raises exactly when the source balance is still unknown after its read. It fails with "nonce too low" exactly when signing did, or when signing and the progress line passed and delivery did. An unknown source balance takes the attempt's read once signing succeeded (data_bridge.py:132-133), and stays unknown otherwise. The monitoring flag ends up set exactly when it was set before or the progress line passed (data_bridge.py:140). The pause state, the failure counter, the pause deadline, the clock, the destination balance and a known source balance are kept (`KeepsFlow`). |
| `Bot.Retry` | t3rn-bot.py:97-152 | Attempts build transactions in order: each one is the fixed parameters with nonce = nonce current at that attempt + attempt index. At most 3 attempts are made. The loop goes on after every attempt but the last (it failed with "nonce too low", was not the third, and the nonce was re-read), and it does not go on after the last. It returns the last attempt's hash and 0.1 exactly when the last attempt raised nothing. The final tracker is the one the attempts' steps produce. |
| `Bot.StepsRegisterSigned` | t3rn-bot.py:97-152 | Over any run of attempts, the tracker's list for the direction gains one 0.1 per attempt that got past signing. The other direction is untouched. The pause state, counter, deadline, clock, destination balance and known source balance are kept, and a set monitoring flag stays set. |
| `Bot.SendBridgeTransaction` | t3rn-bot.py:74-156 | A failed nonce, gas or base-fee read returns (None, None) with nothing built or registered. Otherwise 1..3 transactions: value 10^17 wei, gas 2·(estimate+1), fee cap base fee + 1 gwei, tip 1 gwei, the network's contract and chain id, the template as data. Their nonces follow the retry rule. The loop goes on after every attempt but the last and stops after the last; the hash and 0.1 come back exactly when the last attempt raised nothing. One 0.1 entry is registered per signed attempt. Apart from the pending entries and an unknown source balance, the tracker is kept: pause state, counter, deadline, clock and destination balance. The final tracker is the one the attempts' steps produce. |
| `Bot.AttemptNoncesUseIndex` | t3rn-bot.py:68-102 | Attempt 0 uses at least both initial counts. Attempt i uses at least the counts re-read after attempt i−1, plus i. |
| `Bot.CleanFirstAttemptSucceeds` | t3rn-bot.py:112-141 | A first attempt that raises nothing ends the call with one transaction, its hash and 0.1. |
| `Bot.NonceTooLowFirstAttemptRetries` | t3rn-bot.py:143-149 | A first attempt that fails with "nonce too low" and re-reads the nonce is followed by a second one, on the re-read nonce plus one. |
| `Bot.FirstConnecting` | t3rn-bot.py:176-181 | It finds a URL iff some URL connects. The result is the first one that does. |
| `Bot.CreateWeb3WithRetry` | t3rn-bot.py:158-183 | The primary URL, then the backups in order. It raises iff none connects. |
| `Bot.BridgeSuccesses` | t3rn-bot.py:213-249 | A running account counts at most one success per bridge pass. |
| `Bot.RoundSuccesses` | t3rn-bot.py:207-249 | A round in which every account is paused counts nothing. |
| `Bot.RoundSuccessesAdditive` | t3rn-bot.py:207-249 | A round's count is the sum over its accounts, so rounds split at any point. |
| `Bot.BridgeSuccessesAdditive` | t3rn-bot.py:213-249 | The same over one account's bridge passes. |
| `Bot.TurnCountsOnlyRunning` | t3rn-bot.py:208-211 | A paused account contributes nothing. A running one contributes its passes' count. |
| `Bot.PassCountsOnlySends` | t3rn-bot.py:222-249 | A pass counts exactly when a non-empty template exists for the network's direction and the send returned a hash. |
| `Bot.BridgeSuccessesCountsSent` | t3rn-bot.py:213-249 | An account's count is the number of its passes that reach the send and get a hash back. |
| `Bot.RoundSuccessesCountsSent` | t3rn-bot.py:207-249 | A round's count is the number of passes of running accounts that reach the send and get a hash back. |
| `Bot.RunRounds` | t3rn-bot.py:203-257 | Each round run advances the transaction counter by one and adds that round's successes. No round starts once the bound is reached, and the loop stops only at the bound or when no rounds are left. |
| `Bot.ProcessNetworkTransactions` | t3rn-bot.py:185-263 | No connection returns the counters unchanged. Otherwise the same as the round loop. |
| `Bot.BoundedRunStopsAtBound` | t3rn-bot.py:203-205 | With a fixed count or a random range and enough rounds, the counter ends exactly at the bound (the range's lower end), or stays where it was if already past it. |
| `TransactionManager.NetworkCongestion` | transaction_manager.py:57-71 | The congestion estimate never exceeds 0.8, so the fee cap is never raised. |
| `TransactionManager.EstimateOptimalGas` | transaction_manager.py:27-55 | None iff no price was given and reading the network price raised. Otherwise the fee cap is the integer part of 1.2·price and the tip the integer part of 0.1·price. |
| `TransactionManager.EstimateIsConsistent` | transaction_manager.py:41-52 | The fee cap is never below the tip, and a higher given price never lowers either field. |
| `TransactionManager.SendTransactionWithRetry` | transaction_manager.py:73-122 | A receipt iff some attempt within `max_retries` confirmed, and then it is the first confirming attempt's receipt. Otherwise exactly `max_retries` attempts. The sleeps are 2^i after each failed send, and after each failed wait except the last attempt's. Each attempt carries the latest successful estimate, or the caller's fields when none succeeded. |
| `TransactionManager.BackoffLength` | transaction_manager.py:110-119 | A run of n failed attempts sleeps n−1 times when it used all `max_retries` attempts and the last one's wait failed, and n times otherwise. Sleep i lasts 2^i seconds. |
| `TransactionManager.BridgePriority` | transaction_manager.py:149-158 | Defined iff the network is configured and its liquidity score is non-zero. Priority · liquidity = balance · fee multiplier, with missing factors counting as 1. |
| `TransactionManager.Strategies` | transaction_manager.py:139-145 | One strategy per balance entry, in order, each with that network's priority. It fails iff some entry's priority fails. |
| `TransactionManager.FirstBest` | transaction_manager.py:147 | The index of a maximal priority, earlier than any other maximal one. |
| `TransactionManager.CalculateOptimalBridgeStrategy` | transaction_manager.py:130-147 | A strategy iff there are balances and all priorities are defined. It is the entry of greatest priority, the earliest among equals (the sort is stable in reverse). |

## Left out

- Threads, printing and logging. The monitor loop is one tick per call.
- `time.sleep`. Only `SendTransactionWithRetry` returns its sleeps, as values. The 2-second sleep between the balance reads of `update_balance` (data_bridge.py:119-121) is not modelled. The retry loop of `send_bridge_transaction` does not sleep.
- Floating point. Balances, times and priorities are exact `real`s. `int(price * 1.2)` is the exact floor of 6·price/5, which IEEE rounding can miss by one for very large prices.
- The HTTP requests, JSON decoding and web3 calls. They are parameters carrying what they returned or whether they raised.
- The thread objects and the `stop_monitoring` flag: starting, stopping and joining the monitor thread. The `monitoring_active` flag and the clock it starts are modelled.
- `min_expected_balance_change`: it is set but never read.
- `BridgeDataManager.update_data_bridge` rewrites data_bridge.py on disk. `bridge_transaction` and `execute_bridge` are not called by the bot's send path.
- `process_transactions` (t3rn-bot.py:265-314): a second driver loop that nothing in the program calls. It is not modelled; `ProcessNetworkTransactions` models the driver the program uses.
- The menus and `parse_input`, the terminal helpers and the key and network configuration files. They are user interface or configuration.
- `get_random_pause` and the pause between transactions: randomness and sleeping.
- Bot.ProcessNetworkTransactions: an exception escaping the round loop (which returns the counters reached so far) is not modelled. Each pass's outcome is given as a value rather than derived from `SendBridgeTransaction`.
- Bot.ProcessNetworkTransactions: setting the network's client on every tracker (t3rn-bot.py:194-198) is `SetChainWeb3` per tracker and is not composed into this function, whose turns carry the trackers' pause flags as values.
- Bot.RunRounds: an infinite count is followed only for the rounds supplied.
- PyStr.Lower: lower-cases ASCII capitals only; Python's `lower()` also maps non-ASCII letters.
- TransactionManager.BridgePriority: a factor present in the configuration with the value None (a TypeError) is not modelled; absent and present are the only cases.
- Concurrency between the monitor thread and the sender on the same tracker. Every operation here is atomic.
