/**
 * The trade ledger: the `trades` table, the upsert `log_trade`, and the two
 * read-only queries `get_stats` and `get_recent_trades`.
 *
 * The table is a map from trade id (the primary key) to its row, together with
 * the ids in the order their rows were inserted (the table's rowid order).
 */
module Database {
  import opened Outcomes

  /** One row of the `trades` table. `result` and `balanceAfter` may be NULL. */
  datatype Trade = Trade(
    id: string,
    asset: string,
    direction: string,
    amount: real,
    duration: int,
    timestamp: real,
    status: string,
    result: Option<string>,
    profit: real,
    balanceAfter: Option<real>)

  /** The dictionary handed to `log_trade`: `None` is a key that is not in it. */
  datatype TradeData = TradeData(
    id: Option<string>,
    asset: Option<string>,
    direction: Option<string>,
    amount: Option<real>,
    duration: Option<int>,
    timestamp: Option<real>,
    status: Option<string>,
    result: Option<string>,
    profit: Option<real>,
    balanceAfter: Option<real>)

  /** `log_trade` raises `KeyError` for a key it indexes without a default. */
  datatype LogError = MissingKey(key: string)

  /** One call of `log_trade`, with the clock reading `time.time()` would give during it. */
  datatype LogCall = LogCall(data: TradeData, now: real)

  datatype Table = Table(rows: map<string, Trade>, order: seq<string>) {

    /** `id` is the primary key: each row is listed once in rowid order and is stored under its own id. */
    ghost predicate Valid() {
      && (forall i, j :: 0 <= i < j < |order| ==> order[i] != order[j])
      && (forall k :: k in rows <==> k in order)
      && (forall k :: k in rows ==> rows[k].id == k)
    }
  }

  /** The table `init_db` creates in a fresh database file. */
  const EmptyTable := Table(map[], [])

  /** The payload carries every key the INSERT branch indexes without a default. */
  predicate Complete(d: TradeData) {
    d.id.Some? && d.asset.Some? && d.direction.Some? && d.amount.Some? && d.duration.Some?
  }

  /** The UPDATE branch: result, profit, balance_after and status are overwritten, with their defaults. */
  function Updated(row: Trade, d: TradeData): Trade {
    row.(result := d.result,
         profit := d.profit.GetOr(0.0),
         balanceAfter := d.balanceAfter,
         status := d.status.GetOr("completed"))
  }

  /** The INSERT branch: the new row, or the first key it is missing. */
  function NewRow(id: string, d: TradeData, now: real): Result<Trade, LogError> {
    if d.asset.None? then Err(MissingKey("asset"))
    else if d.direction.None? then Err(MissingKey("direction"))
    else if d.amount.None? then Err(MissingKey("amount"))
    else if d.duration.None? then Err(MissingKey("duration"))
    else Ok(Trade(id, d.asset.value, d.direction.value, d.amount.value, d.duration.value,
                  d.timestamp.GetOr(now), d.status.GetOr("open"), Some(d.result.GetOr("pending")),
                  d.profit.GetOr(0.0), Some(d.balanceAfter.GetOr(0.0))))
  }

  /** `log_trade(d)` on table `t` at time `now`: update the row with d's id if it exists, else insert one. */
  function Log(t: Table, d: TradeData, now: real): Result<Table, LogError> {
    if d.id.None? then Err(MissingKey("id"))
    else
      var id := d.id.value;
      if id in t.rows then Ok(t.(rows := t.rows[id := Updated(t.rows[id], d)]))
      else
        match NewRow(id, d, now)
        case Err(e) => Err(e)
        case Ok(row) => Ok(Table(t.rows[id := row], t.order + [id]))
  }

  /** The table after one call; a call that raised has changed nothing. */
  function Step(t: Table, call: LogCall): Table {
    match Log(t, call.data, call.now)
    case Ok(t') => t'
    case Err(_) => t
  }

  /** The table after a sequence of `log_trade` calls, made one after the other. */
  function Replay(t: Table, calls: seq<LogCall>): Table
    decreases |calls|
  {
    if calls == [] then t else Step(Replay(t, calls[..|calls| - 1]), calls[|calls| - 1])
  }

  lemma ReplaySnoc(t: Table, calls: seq<LogCall>, call: LogCall)
    ensures Replay(t, calls + [call]) == Step(Replay(t, calls), call)
  {
    assert (calls + [call])[..|calls|] == calls;
  }

  /** The ids named by a sequence of calls. */
  function IdsOf(calls: seq<LogCall>): set<string>
    decreases |calls|
  {
    if calls == [] then {}
    else
      var last := calls[|calls| - 1].data.id;
      IdsOf(calls[..|calls| - 1]) + (if last.Some? then {last.value} else {})
  }

  // ---------------------------------------------------------------------------
  // log_trade

  lemma LogKeepsValid(t: Table, d: TradeData, now: real)
    requires t.Valid()
    ensures Log(t, d, now).Ok? ==> Log(t, d, now).value.Valid()
  {
    if d.id.Some? && d.id.value !in t.rows && NewRow(d.id.value, d, now).Ok? {
      var id := d.id.value;
      var t' := Log(t, d, now).value;
      assert t'.order == t.order + [id];
      assert id !in t.order;
      forall i, j | 0 <= i < j < |t'.order| ensures t'.order[i] != t'.order[j] {
        if j == |t.order| {
          assert t'.order[i] in t.order;
        }
      }
    }
  }

  /**
   * An id not yet in the table: the call succeeds exactly when the payload has
   * every insert column, and then adds exactly one row, with the defaults
   * status "open", result "pending", profit 0 and balance_after 0, and the
   * clock reading as timestamp when the payload gives none.
   */
  lemma LogInsertsNewId(t: Table, d: TradeData, now: real)
    requires t.Valid() && d.id.Some? && d.id.value !in t.rows
    ensures Log(t, d, now).Ok? <==> Complete(d)
    ensures Log(t, d, now).Err? ==> !Complete(d)
    ensures Complete(d) ==>
      var t' := Log(t, d, now).value;
      var row := t'.rows[d.id.value];
      && t'.rows.Keys == t.rows.Keys + {d.id.value}
      && |t'.rows| == |t.rows| + 1
      && t'.order == t.order + [d.id.value]
      && (forall k :: k in t.rows ==> t'.rows[k] == t.rows[k])
      && row.asset == d.asset.value && row.direction == d.direction.value
      && row.amount == d.amount.value && row.duration == d.duration.value
      && row.timestamp == d.timestamp.GetOr(now)
      && row.status == d.status.GetOr("open")
      && row.result == Some(d.result.GetOr("pending"))
      && row.profit == d.profit.GetOr(0.0)
      && row.balanceAfter == Some(d.balanceAfter.GetOr(0.0))
  {
    if Complete(d) {
      var t' := Log(t, d, now).value;
      assert t'.rows.Keys == t.rows.Keys + {d.id.value};
    }
  }

  /**
   * An id already in the table: the call succeeds, adds no row, keeps the row
   * order, leaves every other row alone, and in the row itself changes only
   * result, profit, balance_after and status (missing status becomes
   * "completed", missing profit 0, missing result or balance_after NULL).
   */
  lemma LogUpdatesExistingId(t: Table, d: TradeData, now: real)
    requires d.id.Some? && d.id.value in t.rows
    ensures Log(t, d, now).Ok?
    ensures
      var t' := Log(t, d, now).value;
      var old_row := t.rows[d.id.value];
      var row := t'.rows[d.id.value];
      && t'.rows.Keys == t.rows.Keys
      && |t'.rows| == |t.rows|
      && t'.order == t.order
      && (forall k :: k in t.rows && k != d.id.value ==> t'.rows[k] == t.rows[k])
      && row.id == old_row.id && row.asset == old_row.asset
      && row.direction == old_row.direction && row.amount == old_row.amount
      && row.duration == old_row.duration && row.timestamp == old_row.timestamp
      && row.status == d.status.GetOr("completed")
      && row.result == d.result
      && row.profit == d.profit.GetOr(0.0)
      && row.balanceAfter == d.balanceAfter
  {
    var t' := Log(t, d, now).value;
    assert t'.rows.Keys == t.rows.Keys;
  }

  /** A call without an id raises before touching the table. */
  lemma LogNeedsId(t: Table, d: TradeData, now: real)
    requires d.id.None?
    ensures Log(t, d, now) == Err(MissingKey("id"))
    ensures Step(t, LogCall(d, now)) == t
  {
  }

  /** Replaying an update for an id already in the table leaves it as the first application did. */
  lemma LogUpdateIdempotent(t: Table, d: TradeData, now: real, later: real)
    requires d.id.Some? && d.id.value in t.rows
    ensures Log(t, d, now).Ok?
    ensures Log(Log(t, d, now).value, d, later) == Log(t, d, now)
  {
    var t' := Log(t, d, now).value;
    assert Updated(Updated(t.rows[d.id.value], d), d) == Updated(t.rows[d.id.value], d);
    assert t'.rows[d.id.value := Updated(t'.rows[d.id.value], d)] == t'.rows;
  }

  /**
   * Replaying a payload that inserted a row is not a no-op when it leaves out
   * balance_after: the insert stored 0, the replay takes the UPDATE branch and
   * stores NULL.
   */
  lemma ReplayedInsertClearsBalance(t: Table, d: TradeData, now: real, later: real)
    requires t.Valid() && Complete(d) && d.id.value !in t.rows && d.balanceAfter.None?
    ensures Log(t, d, now).Ok?
    ensures Log(t, d, now).value.rows[d.id.value].balanceAfter == Some(0.0)
    ensures Log(Log(t, d, now).value, d, later).value.rows[d.id.value].balanceAfter == None
  {
    LogInsertsNewId(t, d, now);
  }

  // ---------------------------------------------------------------------------
  // Sequences of calls

  lemma {:induction false} ReplayKeepsValid(t: Table, calls: seq<LogCall>)
    requires t.Valid()
    ensures Replay(t, calls).Valid()
    decreases |calls|
  {
    if calls != [] {
      var prefix := calls[..|calls| - 1];
      var last := calls[|calls| - 1];
      ReplayKeepsValid(t, prefix);
      LogKeepsValid(Replay(t, prefix), last.data, last.now);
    }
  }

  /** Rows are never deleted, and every row belongs to the table already or to an id some call named. */
  lemma {:induction false} ReplayKeysBounds(t: Table, calls: seq<LogCall>)
    ensures t.rows.Keys <= Replay(t, calls).rows.Keys <= t.rows.Keys + IdsOf(calls)
    decreases |calls|
  {
    if calls != [] {
      var prefix := calls[..|calls| - 1];
      var last := calls[|calls| - 1];
      ReplayKeysBounds(t, prefix);
      var before := Replay(t, prefix);
      match Log(before, last.data, last.now)
      case Ok(after) =>
        assert after.rows.Keys == before.rows.Keys + {last.data.id.value};
      case Err(_) =>
    }
  }

  /**
   * Every call either carries the insert columns or names an id the table
   * already has or an earlier call named: each id's first write can insert.
   */
  ghost predicate FirstWritesComplete(t: Table, calls: seq<LogCall>) {
    forall i :: 0 <= i < |calls| ==>
      && calls[i].data.id.Some?
      && (Complete(calls[i].data) || calls[i].data.id.value in t.rows.Keys + IdsOf(calls[..i]))
  }

  /** One call that names an id and either carries the insert columns or names an existing row adds that id. */
  lemma StepAddsId(t: Table, call: LogCall)
    requires call.data.id.Some?
    requires Complete(call.data) || call.data.id.value in t.rows
    ensures Step(t, call).rows.Keys == t.rows.Keys + {call.data.id.value}
  {
    var id := call.data.id.value;
    if id !in t.rows {
      assert Step(t, call).rows == t.rows[id := NewRow(id, call.data, call.now).value];
    }
  }

  lemma FirstWritesCompletePrefix(t: Table, calls: seq<LogCall>)
    requires calls != [] && FirstWritesComplete(t, calls)
    ensures FirstWritesComplete(t, calls[..|calls| - 1])
  {
    var prefix := calls[..|calls| - 1];
    forall i | 0 <= i < |prefix|
      ensures prefix[i].data.id.Some?
      ensures Complete(prefix[i].data) || prefix[i].data.id.value in t.rows.Keys + IdsOf(prefix[..i])
    {
      assert prefix[..i] == calls[..i];
    }
  }

  /**
   * The row count: when each id's first write carries the insert columns (as
   * the trade executor's writes do), the table ends up with exactly one row per
   * distinct id: those it had plus those the calls named.
   */
  lemma {:induction false} ReplayRowCount(t: Table, calls: seq<LogCall>)
    requires FirstWritesComplete(t, calls)
    ensures Replay(t, calls).rows.Keys == t.rows.Keys + IdsOf(calls)
    ensures |Replay(t, calls).rows| == |t.rows.Keys + IdsOf(calls)|
    decreases |calls|
  {
    if calls != [] {
      var n := |calls| - 1;
      var prefix := calls[..n];
      FirstWritesCompletePrefix(t, calls);
      ReplayRowCount(t, prefix);
      assert calls[..n] == prefix;
      StepAddsId(Replay(t, prefix), calls[n]);
    }
    assert |Replay(t, calls).rows| == |Replay(t, calls).rows.Keys|;
  }

  // ---------------------------------------------------------------------------
  // The ledger object

  /** The trades database: the table the bot writes through `log_trade`. */
  class TradeLedger {
    var rows: map<string, Trade>
    var order: seq<string>

    function State(): Table
      reads this
    {
      Table(rows, order)
    }

    ghost predicate Valid()
      reads this
    {
      State().Valid()
    }

    /** `init_db` on a fresh database file: the `trades` table exists and is empty. */
    constructor ()
      ensures Valid() && State() == EmptyTable
    {
      rows := map[];
      order := [];
    }

    /** `log_trade(d)` with `time.time()` reading `now`: the error it raises, or None. */
    method LogTrade(d: TradeData, now: real) returns (error: Option<LogError>)
      requires Valid()
      modifies this
      ensures Valid()
      ensures match Log(old(State()), d, now)
              case Ok(t) => error == None && State() == t
              case Err(e) => error == Some(e) && State() == old(State())
    {
      LogKeepsValid(State(), d, now);
      if d.id.None? {
        return Some(MissingKey("id"));
      }
      var id := d.id.value;
      if id in rows {
        rows := rows[id := Updated(rows[id], d)];
      } else {
        var row := NewRow(id, d, now);
        if row.Err? {
          return Some(row.error);
        }
        rows := rows[id := row.value];
        order := order + [id];
      }
      error := None;
    }
  }

  // ---------------------------------------------------------------------------
  // Queries

  /** The rows listed by `ids`, in that order. */
  function RowsOf(rows: map<string, Trade>, ids: seq<string>): (r: seq<Trade>)
    requires forall k :: k in ids ==> k in rows
    ensures |r| == |ids|
    ensures forall i :: 0 <= i < |ids| ==> r[i] == rows[ids[i]]
  {
    seq(|ids|, i requires 0 <= i < |ids| => rows[ids[i]])
  }

  /** Every row of the table, in rowid order: what a query without ORDER BY scans. */
  function AllRows(t: Table): seq<Trade>
    requires t.Valid()
  {
    RowsOf(t.rows, t.order)
  }

  lemma {:induction false} DistinctCount(ids: seq<string>)
    requires forall i, j :: 0 <= i < j < |ids| ==> ids[i] != ids[j]
    ensures |set k | k in ids| == |ids|
    decreases |ids|
  {
    if ids != [] {
      var n := |ids| - 1;
      DistinctCount(ids[..n]);
      assert (set k | k in ids) == (set k | k in ids[..n]) + {ids[n]};
      assert ids[n] !in ids[..n];
    }
  }

  /** The table holds as many rows as its rowid order lists. */
  lemma RowCountIsOrderLength(t: Table)
    requires t.Valid()
    ensures |t.rows| == |t.order|
  {
    DistinctCount(t.order);
    assert t.rows.Keys == set k | k in t.order;
  }

  predicate IsCompleted(r: Trade) {
    r.status == "completed"
  }

  /** The ids of the rows whose status is "completed". */
  ghost function CompletedIds(rows: map<string, Trade>): set<string> {
    set k | k in rows && IsCompleted(rows[k])
  }

  /** `COUNT(*) ... WHERE status = 'completed'`. */
  function CountCompleted(rows: seq<Trade>): nat
    decreases |rows|
  {
    if rows == [] then 0
    else CountCompleted(rows[..|rows| - 1]) + (if IsCompleted(rows[|rows| - 1]) then 1 else 0)
  }

  /** `SUM(CASE WHEN result = <result> THEN 1 ELSE 0 END) ... WHERE status = 'completed'`, NULL read as 0. */
  function CountResult(rows: seq<Trade>, result: string): nat
    decreases |rows|
  {
    if rows == [] then 0
    else
      var last := rows[|rows| - 1];
      CountResult(rows[..|rows| - 1], result) + (if IsCompleted(last) && last.result == Some(result) then 1 else 0)
  }

  /** `SUM(profit) ... WHERE status = 'completed'`, NULL read as 0. */
  function SumProfit(rows: seq<Trade>): real
    decreases |rows|
  {
    if rows == [] then 0.0
    else
      var last := rows[|rows| - 1];
      SumProfit(rows[..|rows| - 1]) + (if IsCompleted(last) then last.profit else 0.0)
  }

  /** A completed row is a win, a loss, or neither; never both. */
  lemma {:induction false} ResultCountsBounded(rows: seq<Trade>)
    ensures CountResult(rows, "WIN") + CountResult(rows, "LOSS") <= CountCompleted(rows)
    decreases |rows|
  {
    if rows != [] {
      ResultCountsBounded(rows[..|rows| - 1]);
    }
  }

  /** Without completed rows there is no profit to sum. */
  lemma {:induction false} NoCompletedNoProfit(rows: seq<Trade>)
    ensures CountCompleted(rows) == 0 ==> SumProfit(rows) == 0.0
    decreases |rows|
  {
    if rows != [] {
      NoCompletedNoProfit(rows[..|rows| - 1]);
    }
  }

  /** The completed ids a listing names. */
  ghost function CompletedAmong(rows: map<string, Trade>, ids: seq<string>): set<string> {
    set k | k in ids && k in rows && IsCompleted(rows[k])
  }

  lemma CompletedAmongSnoc(rows: map<string, Trade>, ids: seq<string>, k: string)
    requires k in rows
    ensures CompletedAmong(rows, ids + [k]) == CompletedAmong(rows, ids) + (if IsCompleted(rows[k]) then {k} else {})
  {
  }

  /** Counting the completed rows of a listing counts the completed ids it lists. */
  lemma {:induction false} CountCompletedOfListing(rows: map<string, Trade>, ids: seq<string>)
    requires forall k :: k in ids ==> k in rows
    requires forall i, j :: 0 <= i < j < |ids| ==> ids[i] != ids[j]
    ensures CountCompleted(RowsOf(rows, ids)) == |CompletedAmong(rows, ids)|
    decreases |ids|
  {
    if ids != [] {
      var n := |ids| - 1;
      var prefix := ids[..n];
      CountCompletedOfListing(rows, prefix);
      var listing := RowsOf(rows, ids);
      assert listing[..n] == RowsOf(rows, prefix);
      assert CountCompleted(listing) == CountCompleted(RowsOf(rows, prefix)) + (if IsCompleted(rows[ids[n]]) then 1 else 0);
      assert ids == prefix + [ids[n]];
      CompletedAmongSnoc(rows, prefix, ids[n]);
      assert ids[n] !in CompletedAmong(rows, prefix);
    }
  }

  /** The aggregates `get_stats` reports; `winRate` is a percentage. */
  datatype Stats = Stats(totalTrades: nat, wins: nat, losses: nat, winRate: real, totalProfit: real)

  /** `wins / total * 100`, guarded against division by zero. */
  function WinRate(wins: nat, total: nat): (rate: real)
    ensures total == 0 ==> rate == 0.0
    ensures wins <= total ==> 0.0 <= rate <= 100.0
  {
    if total > 0 then
      assert wins <= total ==> (wins as real) / (total as real) <= 1.0;
      (wins as real) / (total as real) * 100.0
    else 0.0
  }

  /** `get_stats` over a listing of rows. */
  function Aggregate(rows: seq<Trade>): (s: Stats)
    ensures s.wins + s.losses <= s.totalTrades
    ensures 0.0 <= s.winRate <= 100.0
    ensures s.totalTrades == 0 ==> s == Stats(0, 0, 0, 0.0, 0.0)
  {
    ResultCountsBounded(rows);
    NoCompletedNoProfit(rows);
    var total := CountCompleted(rows);
    var wins := CountResult(rows, "WIN");
    Stats(total, wins, CountResult(rows, "LOSS"), WinRate(wins, total), SumProfit(rows))
  }

  /** A row that is not completed changes none of the aggregates. */
  lemma OpenRowNotCounted(rows: seq<Trade>, r: Trade)
    requires !IsCompleted(r)
    ensures Aggregate(rows + [r]) == Aggregate(rows)
  {
    assert (rows + [r])[..|rows|] == rows;
  }

  /** A completed row adds one trade, one win or loss according to its result, and its profit. */
  lemma CompletedRowCounted(rows: seq<Trade>, r: Trade)
    requires IsCompleted(r)
    ensures var before, after := Aggregate(rows), Aggregate(rows + [r]);
      && after.totalTrades == before.totalTrades + 1
      && after.wins == before.wins + (if r.result == Some("WIN") then 1 else 0)
      && after.losses == before.losses + (if r.result == Some("LOSS") then 1 else 0)
      && after.totalProfit == before.totalProfit + r.profit
  {
    assert (rows + [r])[..|rows|] == rows;
  }

  /**
   * `get_stats()`: counts, wins, losses and profit over the completed rows
   * only, with the win rate in [0, 100] and all zeros on a table without
   * completed rows (in particular on an empty one).
   */
  function GetStats(t: Table): (s: Stats)
    requires t.Valid()
    ensures s.totalTrades == |CompletedIds(t.rows)|
    ensures s.wins + s.losses <= s.totalTrades
    ensures 0.0 <= s.winRate <= 100.0
    ensures s.totalTrades == 0 ==> s == Stats(0, 0, 0, 0.0, 0.0)
  {
    CountCompletedOfListing(t.rows, t.order);
    assert CompletedAmong(t.rows, t.order) == CompletedIds(t.rows);
    Aggregate(AllRows(t))
  }

  /** `get_stats()` on the table `init_db` creates. */
  lemma EmptyLedgerStats()
    ensures GetStats(EmptyTable) == Stats(0, 0, 0, 0.0, 0.0)
  {
    assert EmptyTable.Valid();
    assert CompletedIds(EmptyTable.rows) == {};
  }

  /** Rows in non-increasing timestamp order: `ORDER BY timestamp DESC`. */
  predicate NewestFirst(s: seq<Trade>) {
    forall i, j :: 0 <= i < j < |s| ==> s[j].timestamp <= s[i].timestamp
  }

  function InsertByTime(x: Trade, s: seq<Trade>): (r: seq<Trade>)
    requires NewestFirst(s)
    ensures |r| == |s| + 1
    ensures multiset(r) == multiset(s) + multiset{x}
    ensures NewestFirst(r)
    ensures r[0] == x || (s != [] && r[0] == s[0])
    decreases |s|
  {
    if s == [] || s[0].timestamp <= x.timestamp then [x] + s
    else
      assert s == [s[0]] + s[1..];
      [s[0]] + InsertByTime(x, s[1..])
  }

  /** The rows in `ORDER BY timestamp DESC` order (rows with equal timestamps in some order). */
  function SortNewestFirst(s: seq<Trade>): (r: seq<Trade>)
    ensures |r| == |s|
    ensures multiset(r) == multiset(s)
    ensures NewestFirst(r)
    decreases |s|
  {
    if s == [] then []
    else
      assert s == [s[0]] + s[1..];
      InsertByTime(s[0], SortNewestFirst(s[1..]))
  }

  /** The `limit` that `get_recent_trades` uses when called without one. */
  const DefaultRecentLimit := 50

  /** What is left after a prefix of a newest-first listing is no newer than anything in the prefix. */
  lemma PrefixIsNewest(sorted: seq<Trade>, n: nat)
    requires NewestFirst(sorted) && n <= |sorted|
    ensures forall x, y :: x in multiset(sorted) - multiset(sorted[..n]) && y in sorted[..n] ==> x.timestamp <= y.timestamp
  {
    assert sorted == sorted[..n] + sorted[n..];
    assert multiset(sorted) - multiset(sorted[..n]) == multiset(sorted[n..]);
    forall x, y | x in multiset(sorted[n..]) && y in sorted[..n] ensures x.timestamp <= y.timestamp {
      var j :| 0 <= j < |sorted[n..]| && sorted[n..][j] == x;
      var i :| 0 <= i < n && sorted[..n][i] == y;
      assert sorted[n + j] == x && sorted[i] == y;
    }
  }

  /** Every row of a reordering of the table's rows is a row of the table. */
  lemma ListedRowsAreTableRows(t: Table, s: seq<Trade>)
    requires t.Valid() && multiset(s) <= multiset(AllRows(t))
    ensures forall x :: x in s ==> x.id in t.rows && t.rows[x.id] == x
  {
    var all := AllRows(t);
    forall x | x in s ensures x.id in t.rows && t.rows[x.id] == x {
      assert x in multiset(all);
      var i :| 0 <= i < |all| && all[i] == x;
      assert t.order[i] in t.rows;
    }
  }

  /** A prefix of a newest-first listing is newest first and a sub-multiset of it. */
  lemma PrefixOfNewestFirst(sorted: seq<Trade>, n: nat)
    requires NewestFirst(sorted) && n <= |sorted|
    ensures NewestFirst(sorted[..n])
    ensures multiset(sorted[..n]) <= multiset(sorted)
  {
    assert sorted == sorted[..n] + sorted[n..];
  }

  /** The first `n` rows of the table sorted newest first: the properties the LIMIT clause keeps. */
  lemma NewestPrefix(t: Table, n: nat)
    requires t.Valid() && n <= |t.order|
    ensures var r := SortNewestFirst(AllRows(t))[..n];
      && |r| == n
      && NewestFirst(r)
      && (forall x :: x in r ==> x.id in t.rows && t.rows[x.id] == x)
      && multiset(r) <= multiset(AllRows(t))
      && (forall x, y :: x in multiset(AllRows(t)) - multiset(r) && y in r ==> x.timestamp <= y.timestamp)
  {
    var all := AllRows(t);
    var sorted := SortNewestFirst(all);
    var r := sorted[..n];
    PrefixOfNewestFirst(sorted, n);
    PrefixIsNewest(sorted, n);
    assert multiset(sorted) == multiset(all);
    ListedRowsAreTableRows(t, r);
  }

  /**
   * `get_recent_trades(limit)`: `SELECT * ... ORDER BY timestamp DESC LIMIT
   * limit`. It returns `limit` rows, or every row when the table has fewer or
   * the limit is negative (SQLite reads a negative LIMIT as no limit), newest
   * first, each a row of the table, none twice, and no row left out is newer
   * than a row returned.
   */
  function GetRecentTrades(t: Table, limit: int): (r: seq<Trade>)
    requires t.Valid()
    ensures |r| == if 0 <= limit <= |t.rows| then limit else |t.rows|
    ensures NewestFirst(r)
    ensures forall x :: x in r ==> x.id in t.rows && t.rows[x.id] == x
    ensures multiset(r) <= multiset(AllRows(t))
    ensures forall x, y :: x in multiset(AllRows(t)) - multiset(r) && y in r ==> x.timestamp <= y.timestamp
  {
    var n := if 0 <= limit <= |t.rows| then limit else |t.rows|;
    RowCountIsOrderLength(t);
    NewestPrefix(t, n);
    SortNewestFirst(AllRows(t))[..n]
  }

  /** `get_recent_trades()` without an argument lists the 50 newest rows, or all of them when there are fewer. */
  lemma DefaultRecentTrades(t: Table)
    requires t.Valid()
    ensures |GetRecentTrades(t, DefaultRecentLimit)| == if |t.rows| < 50 then |t.rows| else 50
  {
  }
}
