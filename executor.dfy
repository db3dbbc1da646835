/**
 * Trade execution: the second half of `process_email_signal`. The brokerage
 * client's answers are inputs; what the pipeline does is the sequence of
 * brokerage calls and ledger writes it makes, in order.
 */
module TradeExecutor {
  import opened Outcomes
  import opened SignalExtraction
  import opened Database

  /** The fixed stake and duration (seconds) of every trade. */
  const Amount: int := 50
  const Duration: int := 60

  /** What a brokerage call did: returned a value, or raised. */
  datatype Reply<T> = Returned(value: T) | Raised

  /** `get_available_asset(symbol, force_open=True)`: the resolved name and `asset_data[2]`, the open flag. */
  datatype AssetInfo = AssetInfo(name: string, open: bool)

  /** `buy(...)`: the status flag and `buy_info['id']` (None when `buy_info` has no "id"). */
  datatype BuyReply = BuyReply(ok: bool, id: Option<string>)

  /** The brokerage client's answers to the calls one signal can make. */
  datatype Brokerage = Brokerage(
    asset: Reply<AssetInfo>,
    buy: Reply<BuyReply>,
    win: Reply<bool>,      // check_win(id)
    balance: Reply<real>,  // get_balance()
    payout: Reply<real>)   // get_payout_by_asset(name), a percentage

  /** One observable step of the pipeline: a brokerage call or a `log_trade` write. */
  datatype Effect =
    | GetAvailableAsset(symbol: string)
    | Buy(amount: int, asset: string, direction: string, duration: int)
    | LogTrade(data: TradeData)
    | CheckWin(id: string)
    | GetBalance
    | GetPayout(asset: string)

  /** Profit of a settled trade: `amount * payout / 100` on a win, `-amount` on a loss. */
  function Profit(amount: int, isWin: bool, payout: real): real {
    if isWin then (amount as real) * payout / 100.0 else -(amount as real)
  }

  /** The write made as soon as `buy` succeeds. */
  function OpenWrite(id: string, asset: string, direction: string): TradeData {
    TradeData(Some(id), Some(asset), Some(direction), Some(Amount as real), Some(Duration),
              None, Some("open"), Some("pending"), None, None)
  }

  /** The write made once the trade has settled. */
  function SettledWrite(id: string, isWin: bool, profit: real, balance: real): TradeData {
    TradeData(Some(id), None, None, None, None, None,
              Some("completed"), Some(if isWin then "WIN" else "LOSS"), Some(profit), Some(balance))
  }

  /** The `log_trade` payloads among the effects, in order. */
  function Writes(effects: seq<Effect>): seq<TradeData>
    decreases |effects|
  {
    if effects == [] then []
    else
      var last := effects[|effects| - 1];
      Writes(effects[..|effects| - 1]) + (if last.LogTrade? then [last.data] else [])
  }

  /** The writes, stamped with the clock reading `time.time()` gives during them. */
  function Stamped(writes: seq<TradeData>, now: real): (calls: seq<LogCall>)
    ensures |calls| == |writes|
    ensures forall i :: 0 <= i < |writes| ==> calls[i] == LogCall(writes[i], now)
  {
    seq(|writes|, i requires 0 <= i < |writes| => LogCall(writes[i], now))
  }

  /** Lines 73-98: wait for the result, read balance and payout, record the outcome; any raise ends it. */
  function SettlementEffects(id: string, asset: string, broker: Brokerage): seq<Effect> {
    [CheckWin(id)] +
    match broker.win
    case Raised => []
    case Returned(isWin) =>
      [GetBalance] +
      match broker.balance
      case Raised => []
      case Returned(balance) =>
        [GetPayout(asset)] +
        match broker.payout
        case Raised => []
        case Returned(payout) =>
          [LogTrade(SettledWrite(id, isWin, Profit(Amount, isWin, payout), balance))]
  }

  /** Lines 47-101: resolve the asset, buy, record the open trade, then settle it. */
  function TradeEffects(signal: Signal, broker: Brokerage): seq<Effect> {
    var direction := DirectionName(signal.direction);
    [GetAvailableAsset(signal.symbol)] +
    match broker.asset
    case Raised => []
    case Returned(asset) =>
      if !asset.open then []
      else
        [Buy(Amount, asset.name, direction, Duration)] +
        match broker.buy
        case Raised => []
        case Returned(reply) =>
          if !reply.ok || reply.id.None? then []
          else
            [LogTrade(OpenWrite(reply.id.value, asset.name, direction))] +
            SettlementEffects(reply.id.value, asset.name, broker)
  }

  /** Everything `process_email_signal(client, content)` does, in order. */
  function SignalEffects(content: string, loads: string -> JsonDoc, broker: Brokerage): seq<Effect> {
    match ExtractSignal(content, loads)
    case Err(_) => []
    case Ok(signal) => TradeEffects(signal, broker)
  }

  // ---------------------------------------------------------------------------
  // The writes

  lemma {:induction false} WritesAppend(a: seq<Effect>, b: seq<Effect>)
    ensures Writes(a + b) == Writes(a) + Writes(b)
    decreases |b|
  {
    if b == [] {
      assert a + b == a;
    } else {
      var n := |b| - 1;
      WritesAppend(a, b[..n]);
      assert (a + b)[..|a + b| - 1] == a + b[..n];
    }
  }

  /** The trade is settled: the brokerage answered check_win, get_balance and get_payout_by_asset. */
  predicate Settled(broker: Brokerage) {
    broker.win.Returned? && broker.balance.Returned? && broker.payout.Returned?
  }

  /** `buy` returned success together with an id. */
  predicate Bought(broker: Brokerage) {
    broker.buy.Returned? && broker.buy.value.ok && broker.buy.value.id.Some?
  }

  /** The settled record, when the brokerage answered every settlement call. */
  function SettledWrites(id: string, broker: Brokerage): seq<TradeData> {
    if Settled(broker) then
      var isWin := broker.win.value;
      [SettledWrite(id, isWin, Profit(Amount, isWin, broker.payout.value), broker.balance.value)]
    else []
  }

  /** The settlement phase writes the settled record, once, exactly when the brokerage answered all three calls. */
  lemma SettlementWrites(id: string, asset: string, broker: Brokerage)
    ensures Writes(SettlementEffects(id, asset, broker)) == SettledWrites(id, broker)
  {
    var tail := SettlementEffects(id, asset, broker)[1..];
    assert SettlementEffects(id, asset, broker) == [CheckWin(id)] + tail;
    WritesAppend([CheckWin(id)], tail);
    assert Writes([CheckWin(id)]) == [];
    if broker.win.Returned? {
      var rest := tail[1..];
      assert tail == [GetBalance] + rest;
      WritesAppend([GetBalance], rest);
      assert Writes([GetBalance]) == [];
      if broker.balance.Returned? {
        var rest' := rest[1..];
        assert rest == [GetPayout(asset)] + rest';
        WritesAppend([GetPayout(asset)], rest');
        assert Writes([GetPayout(asset)]) == [];
        if broker.payout.Returned? {
          assert Writes(rest') == Writes([] + rest');
        }
      }
    }
  }

  /**
   * The ledger writes of one signal: none unless the signal is valid, the
   * asset is open and `buy` succeeded with an id; then first the open record
   * (status "open", result "pending", amount 50, duration 60, the brokerage's
   * id), then the settled record for the same id (status "completed", result
   * "WIN" exactly when check_win said so, the profit formula, the new balance)
   * exactly when settlement and everything after it returned.
   */
  lemma LedgerWritesOfSignal(content: string, loads: string -> JsonDoc, broker: Brokerage)
    ensures
      var writes := Writes(SignalEffects(content, loads, broker));
      if ExtractSignal(content, loads).Ok? && broker.asset.Returned? && broker.asset.value.open && Bought(broker) then
        var id, asset := broker.buy.value.id.value, broker.asset.value.name;
        var direction := DirectionName(ExtractSignal(content, loads).value.direction);
        writes == [OpenWrite(id, asset, direction)] + SettledWrites(id, broker)
      else writes == []
  {
    var effects := SignalEffects(content, loads, broker);
    if ExtractSignal(content, loads).Ok? {
      var signal := ExtractSignal(content, loads).value;
      var first := [GetAvailableAsset(signal.symbol)];
      var rest := effects[1..];
      assert effects == first + rest;
      WritesAppend(first, rest);
      assert Writes(first) == [];
      if broker.asset.Returned? && broker.asset.value.open {
        var asset := broker.asset.value;
        var direction := DirectionName(signal.direction);
        var buy := [Buy(Amount, asset.name, direction, Duration)];
        var rest' := rest[1..];
        assert rest == buy + rest';
        WritesAppend(buy, rest');
        assert Writes(buy) == [];
        if Bought(broker) {
          var id := broker.buy.value.id.value;
          var open := [LogTrade(OpenWrite(id, asset.name, direction))];
          assert rest' == open + SettlementEffects(id, asset.name, broker);
          WritesAppend(open, SettlementEffects(id, asset.name, broker));
          assert Writes(open) == Writes([] + open);
          SettlementWrites(id, asset.name, broker);
        }
      }
    }
  }

  /** Profit on the settled record: for amount 50, payout 85 gives 42.5 on a win; a loss costs the stake. */
  lemma ProfitExamples(payout: real)
    ensures Profit(Amount, true, 85.0) == 42.5
    ensures Profit(Amount, false, payout) == -50.0
    ensures 0.0 <= payout ==> Profit(Amount, true, payout) >= 0.0
  {
  }

  /**
   * Brokerage calls: nothing is asked of the brokerage for a rejected signal;
   * `buy` is called (once) exactly when the signal is valid and the resolved
   * asset reports open.
   */
  lemma BrokerCallsOfSignal(content: string, loads: string -> JsonDoc, broker: Brokerage)
    ensures ExtractSignal(content, loads).Err? <==> SignalEffects(content, loads, broker) == []
    ensures (exists i :: 0 <= i < |SignalEffects(content, loads, broker)| && SignalEffects(content, loads, broker)[i].Buy?)
        <==> ExtractSignal(content, loads).Ok? && broker.asset.Returned? && broker.asset.value.open
  {
    var effects := SignalEffects(content, loads, broker);
    if ExtractSignal(content, loads).Ok? {
      var signal := ExtractSignal(content, loads).value;
      if broker.asset.Returned? && broker.asset.value.open {
        assert effects[1].Buy?;
      } else {
        assert effects == [GetAvailableAsset(signal.symbol)];
      }
    }
  }

  // ---------------------------------------------------------------------------
  // Effect on the ledger

  /** What `log_trade` keeps true of every row the executor writes: a row is open exactly while its result is pending. */
  predicate Lifecycle(row: Trade) {
    && (row.status == "open" || row.status == "completed")
    && (row.status == "open" <==> row.result == Some("pending"))
  }

  ghost predicate AllLifecycle(t: Table) {
    forall k :: k in t.rows ==> Lifecycle(t.rows[k])
  }

  /** The open record inserts the trade (or resets a row already holding its id) as open and pending. */
  lemma OpenWriteEffect(t: Table, id: string, asset: string, direction: string, now: real)
    requires t.Valid() && AllLifecycle(t)
    ensures Log(t, OpenWrite(id, asset, direction), now).Ok?
    ensures
      var t' := Log(t, OpenWrite(id, asset, direction), now).value;
      && t'.Valid() && AllLifecycle(t')
      && t'.rows.Keys == t.rows.Keys + {id}
      && (forall k :: k in t.rows && k != id ==> t'.rows[k] == t.rows[k])
      && t'.rows[id].status == "open" && t'.rows[id].result == Some("pending")
  {
    var d := OpenWrite(id, asset, direction);
    LogKeepsValid(t, d, now);
    if id in t.rows {
      LogUpdatesExistingId(t, d, now);
    } else {
      assert Complete(d);
      LogInsertsNewId(t, d, now);
    }
    var t' := Log(t, d, now).value;
    assert t'.rows[id].status == "open" && t'.rows[id].result == Some("pending");
    forall k | k in t'.rows ensures Lifecycle(t'.rows[k]) {
      if k != id {
        assert t'.rows[k] == t.rows[k];
      }
    }
  }

  /** The settled record completes the row of its id with the result, profit and balance. */
  lemma SettledWriteEffect(t: Table, id: string, isWin: bool, profit: real, balance: real, now: real)
    requires t.Valid() && AllLifecycle(t) && id in t.rows
    ensures Log(t, SettledWrite(id, isWin, profit, balance), now).Ok?
    ensures
      var t' := Log(t, SettledWrite(id, isWin, profit, balance), now).value;
      && t'.Valid() && AllLifecycle(t')
      && t'.rows.Keys == t.rows.Keys
      && (forall k :: k in t.rows && k != id ==> t'.rows[k] == t.rows[k])
      && t'.rows[id].status == "completed"
      && t'.rows[id].result == Some(if isWin then "WIN" else "LOSS")
      && t'.rows[id].profit == profit
      && t'.rows[id].balanceAfter == Some(balance)
  {
    var d := SettledWrite(id, isWin, profit, balance);
    LogKeepsValid(t, d, now);
    LogUpdatesExistingId(t, d, now);
    var t' := Log(t, d, now).value;
    forall k | k in t'.rows ensures Lifecycle(t'.rows[k]) {
      if k != id {
        assert t'.rows[k] == t.rows[k];
      }
    }
  }

  /** The effect on the ledger of the open record followed by the settled record, if any. */
  lemma TradeWritesOnLedger(t: Table, id: string, asset: string, direction: string, broker: Brokerage, now: real)
    requires t.Valid() && AllLifecycle(t)
    ensures
      var t' := Replay(t, Stamped([OpenWrite(id, asset, direction)] + SettledWrites(id, broker), now));
      && t'.Valid()
      && AllLifecycle(t')
      && t'.rows.Keys == t.rows.Keys + {id}
      && (forall k :: k in t.rows && k != id ==> t'.rows[k] == t.rows[k])
      && (Settled(broker) ==>
           && t'.rows[id].status == "completed"
           && t'.rows[id].result == Some(if broker.win.value then "WIN" else "LOSS")
           && t'.rows[id].profit == Profit(Amount, broker.win.value, broker.payout.value)
           && t'.rows[id].balanceAfter == Some(broker.balance.value))
      && (!Settled(broker) ==> t'.rows[id].status == "open" && t'.rows[id].result == Some("pending"))
  {
    var open := OpenWrite(id, asset, direction);
    ReplayOpenThenSettled(t, open, SettledWrites(id, broker), now);
    OpenWriteEffect(t, id, asset, direction, now);
    if Settled(broker) {
      var t1 := Log(t, open, now).value;
      var isWin := broker.win.value;
      SettledWriteEffect(t1, id, isWin, Profit(Amount, isWin, broker.payout.value), broker.balance.value, now);
    }
  }

  /** The writes of a validated signal on an open asset after a successful `buy`. */
  lemma WritesOfPurchase(signal: Signal, broker: Brokerage)
    requires broker.asset.Returned? && broker.asset.value.open && Bought(broker)
    ensures
      var id, asset := broker.buy.value.id.value, broker.asset.value.name;
      Writes(TradeEffects(signal, broker)) == [OpenWrite(id, asset, DirectionName(signal.direction))] + SettledWrites(id, broker)
  {
    TradeEffectsCases(signal, broker);
    var asset := broker.asset.value.name;
    var direction := DirectionName(signal.direction);
    var id := broker.buy.value.id.value;
    var lookup := [GetAvailableAsset(signal.symbol)];
    var attempt := lookup + [Buy(Amount, asset, direction, Duration)];
    var recorded := [LogTrade(OpenWrite(id, asset, direction))];
    WritesSnoc([], lookup[0]);
    assert [] + lookup == lookup;
    WritesSnoc(lookup, attempt[1]);
    WritesAppend(attempt, recorded + SettlementEffects(id, asset, broker));
    WritesAppend(recorded, SettlementEffects(id, asset, broker));
    WritesSnoc([], recorded[0]);
    assert [] + recorded == recorded;
    SettlementWrites(id, asset, broker);
  }

  /**
   * Running a validated signal against the ledger touches at most the row of
   * the id `buy` returned and keeps every row's status and result consistent.
   * When it writes, that row exists afterwards, with status "completed" and
   * result "WIN"/"LOSS", the profit and the new balance after settlement, or
   * still "open"/"pending" when settlement raised. (A rejected signal has no
   * effects at all: BrokerCallsOfSignal.)
   */
  lemma TradeEffectOnLedger(t: Table, signal: Signal, broker: Brokerage, now: real)
    requires t.Valid() && AllLifecycle(t)
    ensures
      var writes := Writes(TradeEffects(signal, broker));
      var t' := Replay(t, Stamped(writes, now));
      && t'.Valid()
      && AllLifecycle(t')
      && (forall k :: k in t.rows && (!Bought(broker) || k != broker.buy.value.id.value) ==> k in t'.rows && t'.rows[k] == t.rows[k])
      && (writes != [] <==> broker.asset.Returned? && broker.asset.value.open && Bought(broker))
      && (writes != [] && Bought(broker) ==>
           var id := broker.buy.value.id.value;
           && t'.rows.Keys == t.rows.Keys + {id}
           && (Settled(broker) ==>
                && t'.rows[id].status == "completed"
                && t'.rows[id].result == Some(if broker.win.value then "WIN" else "LOSS")
                && t'.rows[id].profit == Profit(Amount, broker.win.value, broker.payout.value)
                && t'.rows[id].balanceAfter == Some(broker.balance.value))
           && (!Settled(broker) ==> t'.rows[id].status == "open" && t'.rows[id].result == Some("pending")))
  {
    var writes := Writes(TradeEffects(signal, broker));
    TradeEffectsCases(signal, broker);
    var lookup := [GetAvailableAsset(signal.symbol)];
    WritesSnoc([], lookup[0]);
    assert [] + lookup == lookup;
    if broker.asset.Raised? || !broker.asset.value.open {
      assert writes == [];
      assert Stamped(writes, now) == [];
    } else {
      var asset := broker.asset.value.name;
      var direction := DirectionName(signal.direction);
      var attempt := lookup + [Buy(Amount, asset, direction, Duration)];
      WritesSnoc(lookup, attempt[1]);
      if !Bought(broker) {
        assert writes == [];
        assert Stamped(writes, now) == [];
      } else {
        var id := broker.buy.value.id.value;
        WritesOfPurchase(signal, broker);
        TradeWritesOnLedger(t, id, asset, direction, broker, now);
      }
    }
  }

  /**
   * A completed trade stays completed: a signal leaves every completed row
   * completed, except possibly the row of the id `buy` returned, which ends
   * completed again once settlement returns.
   */
  lemma CompletedRowsStayCompleted(t: Table, signal: Signal, broker: Brokerage, now: real)
    requires t.Valid() && AllLifecycle(t)
    ensures
      var t' := Replay(t, Stamped(Writes(TradeEffects(signal, broker)), now));
      && (forall k :: k in t.rows && t.rows[k].status == "completed" && (!Bought(broker) || k != broker.buy.value.id.value)
            ==> k in t'.rows && t'.rows[k].status == "completed")
      && (broker.asset.Returned? && broker.asset.value.open && Bought(broker) && Settled(broker) ==>
            (broker.buy.value.id.value in t'.rows && t'.rows[broker.buy.value.id.value].status == "completed"))
  {
    TradeEffectOnLedger(t, signal, broker, now);
  }

  /**
   * The open record for an id that already has a completed row takes the
   * UPDATE branch of `log_trade`: the row goes back to "open" and "pending",
   * with profit 0 and balance_after NULL, and keeps the earlier trade's asset,
   * direction, amount, duration and timestamp.
   */
  lemma ReusedIdReopens(t: Table, id: string, asset: string, direction: string, now: real)
    requires id in t.rows && t.rows[id].status == "completed"
    ensures Log(t, OpenWrite(id, asset, direction), now).Ok?
    ensures
      var before := t.rows[id];
      var row := Log(t, OpenWrite(id, asset, direction), now).value.rows[id];
      && row.status == "open" && row.result == Some("pending")
      && row.profit == 0.0 && row.balanceAfter == None
      && row.asset == before.asset && row.direction == before.direction
      && row.amount == before.amount && row.duration == before.duration
      && row.timestamp == before.timestamp
  {
    LogUpdatesExistingId(t, OpenWrite(id, asset, direction), now);
  }

  /**
   * A signal whose `buy` returns the id of a completed trade, and whose
   * settlement raises, leaves that trade's row open and pending, still
   * describing the earlier trade's asset and timestamp.
   */
  lemma ReusedIdLeftOpen(t: Table, signal: Signal, broker: Brokerage, now: real)
    requires broker.asset.Returned? && broker.asset.value.open && Bought(broker) && !Settled(broker)
    requires broker.buy.value.id.value in t.rows && t.rows[broker.buy.value.id.value].status == "completed"
    ensures
      var id := broker.buy.value.id.value;
      var t' := Replay(t, Stamped(Writes(TradeEffects(signal, broker)), now));
      && id in t'.rows
      && t'.rows[id].status == "open" && t'.rows[id].result == Some("pending")
      && t'.rows[id].balanceAfter == None
      && t'.rows[id].asset == t.rows[id].asset && t'.rows[id].timestamp == t.rows[id].timestamp
  {
    var id := broker.buy.value.id.value;
    var open := OpenWrite(id, broker.asset.value.name, DirectionName(signal.direction));
    WritesOfPurchase(signal, broker);
    assert SettledWrites(id, broker) == [];
    ReplayOpenThenSettled(t, open, [], now);
    ReusedIdReopens(t, id, broker.asset.value.name, DirectionName(signal.direction), now);
    LogUpdatesExistingId(t, open, now);
  }

  /**
   * A winning trade end to end: `buy` succeeds with id "T1", check_win says
   * win, the payout is 85%; the ledger then holds "T1" as completed, WIN,
   * with profit 42.5 and the new balance, on the asset the brokerage resolved.
   */
  lemma WinningTradeScenario(t: Table, signal: Signal, asset: string, balance: real, now: real)
    requires t.Valid() && AllLifecycle(t) && "T1" !in t.rows
    ensures
      var broker := Brokerage(Returned(AssetInfo(asset, true)), Returned(BuyReply(true, Some("T1"))),
                              Returned(true), Returned(balance), Returned(85.0));
      var t' := Replay(t, Stamped(Writes(TradeEffects(signal, broker)), now));
      && "T1" in t'.rows
      && |t'.rows| == |t.rows| + 1
      && t'.rows["T1"].asset == asset
      && t'.rows["T1"].direction == DirectionName(signal.direction)
      && t'.rows["T1"].amount == 50.0 && t'.rows["T1"].duration == 60
      && t'.rows["T1"].timestamp == now
      && t'.rows["T1"].status == "completed"
      && t'.rows["T1"].result == Some("WIN")
      && t'.rows["T1"].profit == 42.5
      && t'.rows["T1"].balanceAfter == Some(balance)
  {
    var broker := Brokerage(Returned(AssetInfo(asset, true)), Returned(BuyReply(true, Some("T1"))),
                            Returned(true), Returned(balance), Returned(85.0));
    var open := OpenWrite("T1", asset, DirectionName(signal.direction));
    var settled := SettledWrite("T1", true, 42.5, balance);
    WritesOfPurchase(signal, broker);
    assert SettledWrites("T1", broker) == [settled];
    ReplayOpenThenSettled(t, open, [settled], now);
    LogInsertsNewId(t, open, now);
    var t1 := Log(t, open, now).value;
    LogUpdatesExistingId(t1, settled, now);
  }

  // ---------------------------------------------------------------------------
  // The pipeline, step by step

  lemma SignalEffectsOfExtracted(content: string, loads: string -> JsonDoc, broker: Brokerage)
    ensures ExtractSignal(content, loads).Err? ==> SignalEffects(content, loads, broker) == []
    ensures ExtractSignal(content, loads).Ok? ==>
      SignalEffects(content, loads, broker) == TradeEffects(ExtractSignal(content, loads).value, broker)
  {
  }

  /**
   * `process_email_signal(client, content)` against the ledger object, with
   * `time.time()` reading `now`: the effects it had, in order; the ledger
   * afterwards is the ledger before with those writes applied.
   */
  method ProcessEmailSignal(ledger: TradeLedger, content: string, loads: string -> JsonDoc, broker: Brokerage, now: real)
    returns (effects: seq<Effect>)
    requires ledger.Valid()
    modifies ledger
    ensures ledger.Valid()
    ensures effects == SignalEffects(content, loads, broker)
    ensures ledger.State() == Replay(old(ledger.State()), Stamped(Writes(effects), now))
  {
    SignalEffectsOfExtracted(content, loads, broker);
    var extracted := ExtractSignal(content, loads);
    if extracted.Err? {
      effects := [];
      assert Stamped(Writes(effects), now) == [];
      return;
    }
    effects := ExecuteTrade(ledger, extracted.value, broker, now);
  }

  lemma WritesSnoc(effects: seq<Effect>, e: Effect)
    ensures Writes(effects + [e]) == Writes(effects) + (if e.LogTrade? then [e.data] else [])
  {
    assert (effects + [e])[..|effects|] == effects;
  }

  /** The trade's effects, case by case: where the attempt stops before a write, and what follows a purchase. */
  lemma TradeEffectsCases(signal: Signal, broker: Brokerage)
    ensures var lookup := [GetAvailableAsset(signal.symbol)];
      if broker.asset.Raised? || !broker.asset.value.open then TradeEffects(signal, broker) == lookup
      else
        var asset := broker.asset.value;
        var direction := DirectionName(signal.direction);
        var attempt := lookup + [Buy(Amount, asset.name, direction, Duration)];
        if !Bought(broker) then TradeEffects(signal, broker) == attempt
        else
          var id := broker.buy.value.id.value;
          TradeEffects(signal, broker) ==
            attempt + ([LogTrade(OpenWrite(id, asset.name, direction))] + SettlementEffects(id, asset.name, broker))
  {
  }

  /** Lines 43-58 and 100-101 of `process_email_signal` for a validated signal: resolve the asset and buy. */
  method ExecuteTrade(ledger: TradeLedger, signal: Signal, broker: Brokerage, now: real)
    returns (effects: seq<Effect>)
    requires ledger.Valid()
    modifies ledger
    ensures ledger.Valid()
    ensures effects == TradeEffects(signal, broker)
    ensures ledger.State() == Replay(old(ledger.State()), Stamped(Writes(effects), now))
  {
    TradeEffectsCases(signal, broker);
    var direction := DirectionName(signal.direction);
    effects := [GetAvailableAsset(signal.symbol)];
    WritesSnoc([], GetAvailableAsset(signal.symbol));
    assert [] + effects == effects;
    assert Stamped(Writes(effects), now) == [];
    if broker.asset.Raised? {
      return;
    }
    var asset := broker.asset.value;
    if !asset.open {
      return;
    }
    WritesSnoc(effects, Buy(Amount, asset.name, direction, Duration));
    effects := effects + [Buy(Amount, asset.name, direction, Duration)];
    assert Stamped(Writes(effects), now) == [];
    if broker.buy.Raised? {
      return;
    }
    var reply := broker.buy.value;
    if !reply.ok || reply.id.None? {
      return;
    }
    var prefix := effects;
    var rest := RecordTrade(ledger, reply.id.value, asset.name, direction, broker, now);
    effects := prefix + rest;
    WritesAppend(prefix, rest);
    assert Writes(effects) == Writes(rest);
  }

  /** The open record carries every insert column, so `log_trade` cannot raise on it. */
  lemma OpenWriteSucceeds(t: Table, id: string, asset: string, direction: string, now: real)
    requires t.Valid()
    ensures Log(t, OpenWrite(id, asset, direction), now).Ok?
    ensures id in Log(t, OpenWrite(id, asset, direction), now).value.rows
  {
    var d := OpenWrite(id, asset, direction);
    if id !in t.rows {
      assert Complete(d);
      assert NewRow(id, d, now).Ok?;
    }
  }

  /** Replaying the open record and then, when there is one, the settled record. */
  lemma ReplayOpenThenSettled(t: Table, open: TradeData, settled: seq<TradeData>, now: real)
    requires |settled| <= 1
    ensures Replay(t, Stamped([open] + settled, now)) ==
      var t1 := Step(t, LogCall(open, now));
      if settled == [] then t1 else Step(t1, LogCall(settled[0], now))
  {
    ReplaySnoc(t, [], LogCall(open, now));
    assert Stamped([open], now) == [] + [LogCall(open, now)];
    if settled != [] {
      assert Stamped([open] + settled, now) == [LogCall(open, now)] + [LogCall(settled[0], now)];
      ReplaySnoc(t, [LogCall(open, now)], LogCall(settled[0], now));
    } else {
      assert [open] + settled == [open];
    }
  }

  /** Lines 56-98 of `process_email_signal` once `buy` has returned an id: record the open trade, then settle it. */
  method RecordTrade(ledger: TradeLedger, tradeId: string, asset: string, direction: string, broker: Brokerage, now: real)
    returns (effects: seq<Effect>)
    requires ledger.Valid()
    modifies ledger
    ensures ledger.Valid()
    ensures effects == [LogTrade(OpenWrite(tradeId, asset, direction))] + SettlementEffects(tradeId, asset, broker)
    ensures ledger.State() == Replay(old(ledger.State()), Stamped(Writes(effects), now))
  {
    var open := OpenWrite(tradeId, asset, direction);
    ghost var before := ledger.State();
    OpenWriteSucceeds(before, tradeId, asset, direction, now);
    var _ := ledger.LogTrade(open, now);
    ghost var afterOpen := ledger.State();
    assert afterOpen == Step(before, LogCall(open, now));
    var settlement := Settle(ledger, tradeId, asset, broker, now);
    effects := [LogTrade(open)] + settlement;
    WritesAppend([LogTrade(open)], settlement);
    WritesSnoc([], LogTrade(open));
    SettlementWrites(tradeId, asset, broker);
    ghost var settled := Writes(settlement);
    assert Writes(effects) == [open] + settled;
    ReplayOpenThenSettled(before, open, settled, now);
    if settled != [] {
      LogUpdatesExistingId(afterOpen, settled[0], now);
    }
  }

  /** Lines 73-98 of `process_email_signal`: wait for the result and record it; a raise leaves the ledger alone. */
  method Settle(ledger: TradeLedger, tradeId: string, asset: string, broker: Brokerage, now: real)
    returns (effects: seq<Effect>)
    requires ledger.Valid() && tradeId in ledger.rows
    modifies ledger
    ensures ledger.Valid()
    ensures effects == SettlementEffects(tradeId, asset, broker)
    ensures Settled(broker) ==>
      var isWin := broker.win.value;
      var settled := SettledWrite(tradeId, isWin, Profit(Amount, isWin, broker.payout.value), broker.balance.value);
      ledger.State() == Log(old(ledger.State()), settled, now).value
    ensures !Settled(broker) ==> ledger.State() == old(ledger.State())
  {
    effects := [CheckWin(tradeId)];
    if broker.win.Raised? {
      return;
    }
    var isWin := broker.win.value;
    effects := effects + [GetBalance];
    if broker.balance.Raised? {
      return;
    }
    var newBalance := broker.balance.value;
    effects := effects + [GetPayout(asset)];
    if broker.payout.Raised? {
      return;
    }
    var payout := broker.payout.value;
    var profit := Profit(Amount, isWin, payout);
    var settled := SettledWrite(tradeId, isWin, profit, newBalance);
    // The open record is in the table, so this write takes the UPDATE branch and cannot raise.
    LogUpdatesExistingId(ledger.State(), settled, now);
    var _ := ledger.LogTrade(settled, now);
    effects := effects + [LogTrade(settled)];
  }
}
