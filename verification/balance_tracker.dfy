/** The bridge-completion tracker of one wallet (`BalanceTracker` in data_bridge.py):
    the amounts still in flight per direction, the last committed balance of each
    chain, and the Running/Paused flow state. Every operation is a pure transition;
    balance reads and clock readings are parameters. */
module BalanceTracker {
  import opened Wrappers

  datatype Chain = Op | Base

  datatype Direction = OpToBase | BaseToOp

  function Source(d: Direction): Chain {
    match d
    case OpToBase => Op
    case BaseToOp => Base
  }

  /** The chain a bridge lands on: only a rise there can confirm it. */
  function Destination(d: Direction): Chain {
    match d
    case OpToBase => Base
    case BaseToOp => Op
  }

  function Other(d: Direction): Direction {
    match d
    case OpToBase => BaseToOp
    case BaseToOp => OpToBase
  }

  function OtherChain(c: Chain): Chain {
    match c
    case Op => Base
    case Base => Op
  }

  /** A rise of at least this much on the destination chain confirms a direction. */
  const MinBridgeAmount: real := 0.09
  /** Consecutive failing checks after which the tracker pauses. */
  const MaxFailedChecks: nat := 2
  /** Length of a pause, in minutes. */
  const PauseDurationMinutes: nat := 5
  /** Seconds between two balance checks of the monitor. */
  const CheckInterval: real := 60.0
  /** Attempts one balance read makes before giving up. */
  const BalanceRetries: nat := 3

  datatype Tracker = Tracker(
    opToBase: seq<real>,     // amounts bridged OP -> Base, not yet confirmed
    baseToOp: seq<real>,     // amounts bridged Base -> OP, not yet confirmed
    opBalance: Option<real>, // last committed OP balance, None while unknown
    baseBalance: Option<real>,
    failedChecks: nat,
    paused: bool,
    pauseUntil: real,
    lastCheckTime: real,
    monitoringActive: bool)  // the `monitoring_active` flag: a monitor has been asked for
  {
    function Pending(d: Direction): seq<real> {
      match d
      case OpToBase => opToBase
      case BaseToOp => baseToOp
    }

    function Stored(c: Chain): Option<real> {
      match c
      case Op => opBalance
      case Base => baseBalance
    }

    predicate NothingPending() {
      |opToBase| == 0 && |baseToOp| == 0
    }
  }

  /** The state `__init__` creates. */
  const Initial: Tracker := Tracker([], [], None, None, 0, false, 0.0, 0.0, false)

  /** The fresh reading of chain `c` among the two taken by one check. */
  function FreshOn(c: Chain, op: real, base: real): real {
    match c
    case Op => op
    case Base => base
  }

  /** The rule that confirms a direction: the destination balance rose by at least
      `MinBridgeAmount` over the committed one, an unknown committed balance counting as 0. */
  predicate Confirms(stored: Option<real>, reading: real) {
    reading - stored.GetOr(0.0) >= MinBridgeAmount
  }

  // ---------------------------------------------------------------------------
  // Registering a bridge
  // ---------------------------------------------------------------------------

  /** Result of `start_bridge`: the new state, and whether the call raised. */
  datatype StartOutcome = StartOutcome(tracker: Tracker, raised: bool)

  /** `start_bridge(amount, from, to)`. The key `f"{from}_to_{to}"` exists only for two
      distinct chains; otherwise the lookup raises before anything changes. The amount is
      appended, an unknown source balance is read once (`sourceRead` is what that read
      returns), and the progress line that formats the source balance raises when it is
      still unknown, after the state has already changed. */
  function StartBridge(t: Tracker, amount: real, from: Chain, to: Chain, sourceRead: Option<real>): (r: StartOutcome)
    ensures from == to ==> r.raised && r.tracker == t
    ensures from != to ==>
      var d := if from == Op then OpToBase else BaseToOp;
      && Source(d) == from && Destination(d) == to
      && r.tracker.Pending(d) == t.Pending(d) + [amount]
      && r.tracker.Pending(Other(d)) == t.Pending(Other(d))
      && (t.Stored(from).Some? ==> r.tracker.Stored(from) == t.Stored(from))
      && (t.Stored(from).None? ==> r.tracker.Stored(from) == sourceRead)
      && r.tracker.Stored(to) == t.Stored(to)
      && r.tracker.failedChecks == t.failedChecks
      && r.tracker.paused == t.paused
      && r.tracker.pauseUntil == t.pauseUntil
      && r.tracker.lastCheckTime == t.lastCheckTime
      && (r.raised <==> t.Stored(from).None? && sourceRead.None?)
      // the flag is set only when the progress lines printed; the clock is never reset
      && r.tracker.monitoringActive == (t.monitoringActive || !r.raised)
  {
    if from == to then StartOutcome(t, true)
    else
      var appended :=
        if from == Op then t.(opToBase := t.opToBase + [amount])
        else t.(baseToOp := t.baseToOp + [amount]);
      var refreshed :=
        if appended.Stored(from).Some? then appended
        else if from == Op then appended.(opBalance := sourceRead)
        else appended.(baseBalance := sourceRead);
      if refreshed.Stored(from).None? then StartOutcome(refreshed, true)
      // `start_monitoring` runs only after the flag is set, so it never resets the clock
      else StartOutcome(refreshed.(monitoringActive := true), false)
  }

  // ---------------------------------------------------------------------------
  // Clients and the monitor thread
  // ---------------------------------------------------------------------------

  /** `set_chain_web3(chain, web3)`: a balance still unknown is read through the new client
      (`read` is what `update_balance` returns); a known one is kept. */
  function SetChainWeb3(t: Tracker, c: Chain, read: Option<real>): (r: Tracker)
    ensures r.Stored(c) == if t.Stored(c).None? then read else t.Stored(c)
    ensures r.Stored(OtherChain(c)) == t.Stored(OtherChain(c))
    ensures r.(opBalance := t.opBalance, baseBalance := t.baseBalance) == t
  {
    if t.Stored(c).Some? then t
    else if c == Op then t.(opBalance := read)
    else t.(baseBalance := read)
  }

  /** `start_monitoring()`: when no monitor has been asked for, sets the flag and starts the
      check interval at `now`; otherwise does nothing. */
  function StartMonitoring(t: Tracker, now: real): (r: Tracker)
    ensures r.monitoringActive
    ensures t.monitoringActive ==> r == t
    ensures !t.monitoringActive ==> r.lastCheckTime == now && r.(lastCheckTime := t.lastCheckTime, monitoringActive := false) == t
  {
    if t.monitoringActive then t else t.(monitoringActive := true, lastCheckTime := now)
  }

  /** `stop_monitoring_thread()`: clears the flag, so a later `start_monitoring` starts again. */
  function StopMonitoring(t: Tracker): (r: Tracker)
    ensures !r.monitoringActive
    ensures r.(monitoringActive := t.monitoringActive) == t
  {
    t.(monitoringActive := false)
  }

  /** Once a balance is known, setting the client again does not read it again. */
  lemma SetChainWeb3Settles(t: Tracker, c: Chain, read: Option<real>, read2: Option<real>)
    requires t.Stored(c).Some? || read.Some?
    ensures SetChainWeb3(SetChainWeb3(t, c, read), c, read2) == SetChainWeb3(t, c, read)
  {
  }

  /** A second `start_monitoring` does not move the interval's start. */
  lemma StartMonitoringIdempotent(t: Tracker, now: real, later: real)
    ensures StartMonitoring(StartMonitoring(t, now), later) == StartMonitoring(t, now)
  {
  }

  /** Stopping and starting again restarts the interval at the new clock reading. */
  lemma RestartResetsClock(t: Tracker, now: real)
    ensures StartMonitoring(StopMonitoring(t), now) == t.(monitoringActive := true, lastCheckTime := now)
  {
  }

  /** `start_bridge` sets the flag before it calls `start_monitoring`, so that call finds the
      flag set and leaves the tracker as it is. */
  lemma StartBridgeNeverStartsMonitor(t: Tracker, amount: real, from: Chain, to: Chain, sourceRead: Option<real>,
                                      now: real)
    requires !StartBridge(t, amount, from, to, sourceRead).raised
    ensures var started := StartBridge(t, amount, from, to, sourceRead).tracker;
      StartMonitoring(started, now) == started
  {
  }

  /** The setup of one account before the rounds begin: a fresh tracker, the OP and the
      Base client set (each reads its balance), then the monitor started at `now`. */
  function SetUp(opRead: Option<real>, baseRead: Option<real>, now: real): (r: Tracker)
    ensures r.opBalance == opRead && r.baseBalance == baseRead
    ensures r.NothingPending() && !r.paused && r.failedChecks == 0
    ensures r.monitoringActive && r.lastCheckTime == now
  {
    StartMonitoring(SetChainWeb3(SetChainWeb3(Initial, Op, opRead), Base, baseRead), now)
  }

  // ---------------------------------------------------------------------------
  // Reading a balance
  // ---------------------------------------------------------------------------

  /** `update_balance(chain)`: with no client for the chain the answer is None without a
      read; otherwise up to `BalanceRetries` reads are made, `outcomes[i]` being the outcome of
      the i-th (None when it raised), and the first successful one is the answer.
      `used` is the number of reads made. */
  method UpdateBalance(hasClient: bool, outcomes: seq<Option<real>>) returns (balance: Option<real>, used: nat)
    requires |outcomes| >= BalanceRetries
    ensures used <= BalanceRetries
    ensures !hasClient ==> balance.None? && used == 0
    ensures hasClient ==> used >= 1
    ensures hasClient ==> forall i :: 0 <= i < used - 1 ==> outcomes[i].None?
    ensures balance.Some? ==> hasClient && balance == outcomes[used - 1]
    ensures hasClient && balance.None? ==> used == BalanceRetries && outcomes[used - 1].None?
  {
    if !hasClient {
      return None, 0;
    }
    balance, used := None, 0;
    var attempt := 0;
    while attempt < BalanceRetries
      invariant 0 <= attempt <= BalanceRetries
      invariant used == attempt && balance.None?
      invariant forall i :: 0 <= i < attempt ==> outcomes[i].None?
    {
      used := attempt + 1;
      if outcomes[attempt].Some? {
        return outcomes[attempt], used;
      }
      attempt := attempt + 1;
    }
    // the third failure gives up with None
  }

  /** The reading `UpdateBalance` yields, as a value: the first of the first
      `BalanceRetries` outcomes that succeeded. */
  function FirstRead(hasClient: bool, outcomes: seq<Option<real>>): (r: Option<real>)
    requires |outcomes| >= BalanceRetries
    ensures r.Some? <==> hasClient && exists i :: 0 <= i < BalanceRetries && outcomes[i].Some?
  {
    if !hasClient then None
    else if outcomes[0].Some? then outcomes[0]
    else if outcomes[1].Some? then outcomes[1]
    else outcomes[2]
  }

  lemma UpdateBalanceIsFirstRead(hasClient: bool, outcomes: seq<Option<real>>, balance: Option<real>, used: nat)
    requires |outcomes| >= BalanceRetries
    requires used <= BalanceRetries
    requires !hasClient ==> balance.None? && used == 0
    requires hasClient ==> used >= 1
    requires hasClient ==> forall i :: 0 <= i < used - 1 ==> outcomes[i].None?
    requires balance.Some? ==> hasClient && balance == outcomes[used - 1]
    requires hasClient && balance.None? ==> used == BalanceRetries && outcomes[used - 1].None?
    ensures balance == FirstRead(hasClient, outcomes)
  {
    if hasClient && balance.None? {
      assert forall i :: 0 <= i < BalanceRetries ==> outcomes[i].None?;
    }
  }

  // ---------------------------------------------------------------------------
  // One check cycle
  // ---------------------------------------------------------------------------

  /** The position of the first element equal to `x`: the search `list.remove` makes. */
  function IndexOf(l: seq<real>, x: real): (i: nat)
    requires x in l
    ensures i < |l| && l[i] == x && x !in l[..i]
  {
    if l[0] == x then 0
    else
      assert x in l[1..] by { assert l == [l[0]] + l[1..]; }
      var j := IndexOf(l[1..], x);
      assert l[..j + 1] == [l[0]] + l[1..][..j];
      j + 1
  }

  /** Python's `list.remove(x)`: drops the first element equal to `x` and keeps the
      others in order. */
  function RemoveFirst(l: seq<real>, x: real): (r: seq<real>)
    requires x in l
    ensures r == l[..IndexOf(l, x)] + l[IndexOf(l, x) + 1..]
    ensures |r| == |l| - 1
    ensures multiset(r) == multiset(l) - multiset{x}
  {
    var i := IndexOf(l, x);
    assert l == l[..i] + [x] + l[i + 1..];
    l[..i] + l[i + 1..]
  }

  /** One iteration's bookkeeping: the current amount is still in the list being edited,
      and the rest of the copy stays within it whether or not the amount is removed. */
  lemma SnapshotStep(live: seq<real>, snapshot: seq<real>)
    requires |snapshot| > 0 && multiset(snapshot) <= multiset(live)
    ensures snapshot[0] in live
    ensures multiset(snapshot) == multiset(snapshot[1..]) + multiset{snapshot[0]}
    ensures multiset(snapshot[1..]) <= multiset(live)
    ensures multiset(snapshot[1..]) <= multiset(live) - multiset{snapshot[0]}
  {
    assert snapshot == [snapshot[0]] + snapshot[1..];
    assert snapshot[0] in multiset(snapshot);
  }

  /** The loop `for amount in list(pending)` of `check_all_bridges` for one direction:
      `snapshot` is what is left of the copied list, `live` the list being edited.
      Each iteration re-tests the destination rise and, when it is large enough,
      removes the first entry equal to the current amount. */
  function Scan(live: seq<real>, snapshot: seq<real>, stored: real, reading: real, detected: bool): (r: (seq<real>, bool))
    requires multiset(snapshot) <= multiset(live)
    ensures reading - stored >= MinBridgeAmount ==>
      && multiset(r.0) + multiset(snapshot) == multiset(live)
      && |r.0| == |live| - |snapshot|
      && (r.1 <==> detected || |snapshot| > 0)
    ensures reading - stored < MinBridgeAmount ==> r == (live, detected)
    decreases |snapshot|
  {
    if |snapshot| == 0 then (live, detected)
    else
      SnapshotStep(live, snapshot);
      if reading > stored && reading - stored >= MinBridgeAmount then
        Scan(RemoveFirst(live, snapshot[0]), snapshot[1..], stored, reading, true)
      else
        Scan(live, snapshot[1..], stored, reading, detected)
  }

  /** One direction of a check: all of its pending entries go at once when the
      destination rose enough, none otherwise; the flag says whether anything went. */
  function ResolveDirection(pending: seq<real>, stored: Option<real>, reading: real): (r: (seq<real>, bool))
    ensures r.0 == if Confirms(stored, reading) then [] else pending
    ensures r.1 <==> |pending| > 0 && Confirms(stored, reading)
  {
    Scan(pending, pending, stored.GetOr(0.0), reading, false)
  }

  /** This cycle's readings confirmed at least one pending entry. */
  predicate Progress(t: Tracker, op: real, base: real) {
    || (|t.Pending(OpToBase)| > 0 && Confirms(t.Stored(Base), base))
    || (|t.Pending(BaseToOp)| > 0 && Confirms(t.Stored(Op), op))
  }

  /** After this cycle's readings no entry is left in either direction. */
  predicate Drains(t: Tracker, op: real, base: real) {
    && (|t.Pending(OpToBase)| == 0 || Confirms(t.Stored(Base), base))
    && (|t.Pending(BaseToOp)| == 0 || Confirms(t.Stored(Op), op))
  }

  /** `check_all_bridges()` at clock reading `now` with the two new readings
      (None when `update_balance` gave up). It always returns True, so only the state is
      modelled. Three of its exits return before the new balances are committed: the
      skip on an unknown reading, every paused branch, and the entry into a pause. */
  function CheckAllBridges(t: Tracker, now: real, opRead: Option<real>, baseRead: Option<real>): (r: Tracker)
    // an unknown reading skips the whole cycle
    ensures opRead.None? || baseRead.None? ==> r == t
    ensures r.lastCheckTime == t.lastCheckTime && r.monitoringActive == t.monitoringActive
    ensures opRead.Some? && baseRead.Some? ==>
      var op, base := opRead.value, baseRead.value;
      // each direction is settled by its destination chain alone, all or nothing
      && r.opToBase == (if Confirms(t.baseBalance, base) then [] else t.opToBase)
      && r.baseToOp == (if Confirms(t.opBalance, op) then [] else t.baseToOp)
      // paused: early release when drained, stay until pauseUntil, then release
      && (t.paused && Drains(t, op, base) ==>
            !r.paused && r.failedChecks == 0 && r.pauseUntil == t.pauseUntil
            && r.opBalance == t.opBalance && r.baseBalance == t.baseBalance)
      && (t.paused && !Drains(t, op, base) && now < t.pauseUntil ==>
            r.paused && r.failedChecks == t.failedChecks && r.pauseUntil == t.pauseUntil
            && r.opBalance == t.opBalance && r.baseBalance == t.baseBalance)
      && (t.paused && !Drains(t, op, base) && now >= t.pauseUntil ==>
            !r.paused && r.failedChecks == 0 && r.pauseUntil == t.pauseUntil
            && r.opBalance == t.opBalance && r.baseBalance == t.baseBalance)
      // running and nothing confirmed while something is left: one more failed check
      && (!t.paused && !Progress(t, op, base) && !Drains(t, op, base) ==>
            r.failedChecks == t.failedChecks + 1)
      && (!t.paused && !Progress(t, op, base) && !Drains(t, op, base)
          && t.failedChecks + 1 >= MaxFailedChecks ==>
            r.paused && r.pauseUntil == now + (PauseDurationMinutes * 60) as real
            && r.opBalance == t.opBalance && r.baseBalance == t.baseBalance)
      && (!t.paused && !Progress(t, op, base) && !Drains(t, op, base)
          && t.failedChecks + 1 < MaxFailedChecks ==>
            !r.paused && r.pauseUntil == t.pauseUntil
            && r.opBalance == opRead && r.baseBalance == baseRead)
      // running with a confirmation or nothing left: counter reset, both readings committed
      && (!t.paused && (Progress(t, op, base) || Drains(t, op, base)) ==>
            !r.paused && r.failedChecks == 0 && r.pauseUntil == t.pauseUntil
            && r.opBalance == opRead && r.baseBalance == baseRead)
  {
    if opRead.None? || baseRead.None? then t
    else
      var (resolved, changesDetected) := Resolved(t, opRead.value, baseRead.value);
      if t.paused then WhilePaused(resolved, now)
      else WhileRunning(resolved, changesDetected, now, opRead, baseRead)
  }

  /** Both directions of one check settled by the per-amount loop, and whether any
      entry went. */
  function Resolved(t: Tracker, op: real, base: real): (r: (Tracker, bool))
    ensures r.0 == t.(opToBase := if Confirms(t.baseBalance, base) then [] else t.opToBase,
                      baseToOp := if Confirms(t.opBalance, op) then [] else t.baseToOp)
    ensures r.1 <==> Progress(t, op, base)
    ensures r.0.NothingPending() <==> Drains(t, op, base)
  {
    var (opToBase, opToBaseDone) := ResolveDirection(t.opToBase, t.baseBalance, base);
    var (baseToOp, baseToOpDone) := ResolveDirection(t.baseToOp, t.opBalance, op);
    (t.(opToBase := opToBase, baseToOp := baseToOp), opToBaseDone || baseToOpDone)
  }

  /** The paused branch of a check: drained or past `pauseUntil` resumes with the counter
      cleared, otherwise the tracker stays as it is; the new balances are not committed. */
  function WhilePaused(resolved: Tracker, now: real): Tracker
  {
    var remainingPause := if resolved.pauseUntil - now > 0.0 then resolved.pauseUntil - now else 0.0;
    if |resolved.opToBase| == 0 && |resolved.baseToOp| == 0 then resolved.(paused := false, failedChecks := 0)
    else if remainingPause > 0.0 then resolved
    else resolved.(paused := false, failedChecks := 0)
  }

  /** The running branch of a check: nothing confirmed with entries left counts one more
      failure, pausing at the limit without committing the balances; anything else clears
      the counter and commits both readings. */
  function WhileRunning(resolved: Tracker, changesDetected: bool, now: real, opRead: Option<real>,
                        baseRead: Option<real>): Tracker
  {
    if !changesDetected && !(|resolved.opToBase| == 0 && |resolved.baseToOp| == 0) then
      var failed := resolved.failedChecks + 1;
      if failed >= MaxFailedChecks then
        resolved.(failedChecks := failed, paused := true,
                  pauseUntil := now + (PauseDurationMinutes * 60) as real)
      else
        resolved.(failedChecks := failed, opBalance := opRead, baseBalance := baseRead)
    else
      resolved.(failedChecks := 0, opBalance := opRead, baseBalance := baseRead)
  }

  // ---------------------------------------------------------------------------
  // One monitor tick
  // ---------------------------------------------------------------------------

  /** One iteration of the `_monitor_balance` loop at clock reading `now`. Before the
      interval has elapsed nothing happens. After it, the check runs (reading its own clock,
      `checkNow`) only when something is pending, and `lastCheckTime` moves to `now` either
      way, because the check always returns True. */
  function MonitorTick(t: Tracker, now: real, checkNow: real, opRead: Option<real>, baseRead: Option<real>): (r: Tracker)
    ensures now - t.lastCheckTime < CheckInterval ==> r == t
    ensures now - t.lastCheckTime >= CheckInterval ==> r.lastCheckTime == now
    // with nothing pending no balance is read: even the failure counter keeps its value
    ensures now - t.lastCheckTime >= CheckInterval && t.NothingPending() ==>
      r == t.(lastCheckTime := now)
    ensures now - t.lastCheckTime >= CheckInterval && !t.NothingPending() ==>
      r == CheckAllBridges(t, checkNow, opRead, baseRead).(lastCheckTime := now)
  {
    if now - t.lastCheckTime >= CheckInterval then
      if |t.opToBase| > 0 || |t.baseToOp| > 0 then
        var checked := CheckAllBridges(t, checkNow, opRead, baseRead);
        checked.(lastCheckTime := now)
      else
        t.(lastCheckTime := now)
    else
      t
  }

  // ---------------------------------------------------------------------------
  // Properties across calls
  // ---------------------------------------------------------------------------

  /** The flow invariant: a running tracker has fewer than `MaxFailedChecks` failures
      and a paused one has exactly that many. */
  ghost predicate FlowInvariant(t: Tracker) {
    && (t.paused ==> t.failedChecks == MaxFailedChecks)
    && (!t.paused ==> t.failedChecks < MaxFailedChecks)
  }

  lemma InitialSatisfiesFlowInvariant()
    ensures FlowInvariant(Initial)
  {
  }

  lemma StartBridgePreservesFlowInvariant(t: Tracker, amount: real, from: Chain, to: Chain, sourceRead: Option<real>)
    requires FlowInvariant(t)
    ensures FlowInvariant(StartBridge(t, amount, from, to, sourceRead).tracker)
  {
  }

  lemma CheckPreservesFlowInvariant(t: Tracker, now: real, opRead: Option<real>, baseRead: Option<real>)
    requires FlowInvariant(t)
    ensures FlowInvariant(CheckAllBridges(t, now, opRead, baseRead))
  {
  }

  lemma TickPreservesFlowInvariant(t: Tracker, now: real, checkNow: real, opRead: Option<real>, baseRead: Option<real>)
    requires FlowInvariant(t)
    ensures FlowInvariant(MonitorTick(t, now, checkNow, opRead, baseRead))
  {
    CheckPreservesFlowInvariant(t, checkNow, opRead, baseRead);
  }

  /** A check never adds entries: each direction keeps its list or loses all of it. */
  lemma CheckOnlyDrains(t: Tracker, now: real, opRead: Option<real>, baseRead: Option<real>, d: Direction)
    ensures var r := CheckAllBridges(t, now, opRead, baseRead);
      r.Pending(d) == t.Pending(d) || r.Pending(d) == []
  {
  }

  /** A registered amount stays pending through a check whose destination reading did
      not rise enough, even if the other chain's balance rose. */
  lemma RegisteredAmountSurvivesWithoutRise(t: Tracker, amount: real, d: Direction, sourceRead: Option<real>,
                                            now: real, op: real, base: real)
    requires !Confirms(StartBridge(t, amount, Source(d), Destination(d), sourceRead).tracker.Stored(Destination(d)),
                       FreshOn(Destination(d), op, base))
    ensures var started := StartBridge(t, amount, Source(d), Destination(d), sourceRead).tracker;
      var r := CheckAllBridges(started, now, Some(op), Some(base));
      r.Pending(d) == t.Pending(d) + [amount]
  {
    var started := StartBridge(t, amount, Source(d), Destination(d), sourceRead).tracker;
    assert started.Pending(d) == t.Pending(d) + [amount];
  }

  /** A freshly started monitor checks nothing until a full interval has passed. */
  lemma FreshMonitorWaits(t: Tracker, now: real, later: real, checkNow: real, opRead: Option<real>, baseRead: Option<real>)
    requires !t.monitoringActive && later - now < CheckInterval
    ensures MonitorTick(StartMonitoring(t, now), later, checkNow, opRead, baseRead) == StartMonitoring(t, now)
  {
  }

  /** From a running state with bridges in flight, two consecutive checks that see
      no sufficient rise pause the tracker for five minutes from the second check; the
      first commits its readings, so the second measures against them. */
  lemma TwoFailedChecksPause(t: Tracker, now1: real, op1: real, base1: real,
                              now2: real, op2: real, base2: real)
    requires !t.paused && t.failedChecks == 0
    requires !t.NothingPending()
    requires !Confirms(t.baseBalance, base1) && !Confirms(t.opBalance, op1)
    requires !Confirms(Some(base1), base2) && !Confirms(Some(op1), op2)
    ensures var t1 := CheckAllBridges(t, now1, Some(op1), Some(base1));
      && !t1.paused && t1.failedChecks == 1
      && t1.opBalance == Some(op1) && t1.baseBalance == Some(base1)
      && var t2 := CheckAllBridges(t1, now2, Some(op2), Some(base2));
      && t2.paused && t2.failedChecks == MaxFailedChecks
      && t2.pauseUntil == now2 + 300.0
      && t2.opToBase == t.opToBase && t2.baseToOp == t.baseToOp
      && t2.opBalance == Some(op1) && t2.baseBalance == Some(base1)
  {
    var t1 := CheckAllBridges(t, now1, Some(op1), Some(base1));
    assert !Progress(t, op1, base1) && !Drains(t, op1, base1);
    assert t1.Pending(OpToBase) == t.Pending(OpToBase) && t1.Pending(BaseToOp) == t.Pending(BaseToOp);
    assert !Progress(t1, op2, base2) && !Drains(t1, op2, base2);
  }

  /** A paused tracker whose pause has run out resumes on the next check even though
      bridges are still pending, with its failure counter cleared. */
  lemma PauseExpires(t: Tracker, now: real, op: real, base: real)
    requires t.paused && now >= t.pauseUntil
    ensures var r := CheckAllBridges(t, now, Some(op), Some(base));
      !r.paused && r.failedChecks == 0
  {
  }
}
