# E-mail signal trade bot: signal pipeline and trade ledger

The bot reads alert e-mails, finds a JSON piece such as
`{"symbol":"Eurusd", "side":"Buy"}` in the body, and places a fixed trade with the
brokerage: 50 units for 60 seconds, "call" for buy and "put" for sell. It records
the trade in a SQLite `trades` table twice. The first write happens when the
trade opens, with status "open" and result "pending". The second happens when it
settles, with status "completed", the result "WIN" or "LOSS", the profit and the
new balance. A dashboard reads the table back through two queries: aggregate
statistics, and the most recent trades.

The model has six modules:

- `Outcomes`: `Option` and `Result`.
- `PyText`: the Python string operations the pipeline uses (`find`, `rfind`,
  slicing, `in`, `upper`, `capitalize`), plus `lower`, which `capitalize`
  applies after the first character and which states case-insensitive
  equality. The source itself never calls `lower`.
- `SignalExtraction`: `clean_json_string` and the validation part of
  `process_email_signal`, lines 20-39. This is pure: it maps a body to a
  `Signal` or to the `Rejection` that ends processing.
- `Database`:
  - the `trades` table as a `Table` value, a map from primary key to row plus
    the ids in rowid order;
  - the upsert `log_trade` as the function `Log`;
  - the `TradeLedger` class, whose `LogTrade` method updates the table in
    place and is proved against `Log`;
  - `get_stats` and `get_recent_trades` as functions on the table.
- `TradeExecutor`: the trading part of `process_email_signal`, lines 43-106.
  - The brokerage's answers are an input (`Brokerage`): each call either
    returned a value or raised.
  - The result is the ordered trace of brokerage calls and `log_trade` writes
    (`Effect`).
  - The methods `ProcessEmailSignal`, `ExecuteTrade`, `RecordTrade` and
    `Settle` perform those writes on a `TradeLedger`.
- `MailboxBody`: how the listener picks the body of a fetched message
  (`email_listener`, lines 142-159) and hands it on.

The model relates to the source as follows:

- `json.loads` is a function parameter `loads: string -> JsonDoc`.
- `time.time()` is a parameter `now`.
- Every brokerage call is an entry of `Brokerage`.
- Money and time are `real`.

## Model

| member | source | states |
|---|---|---|
| PyText.Find | email_trade_bot.py:7 | `content.find('{')`: -1 exactly when the character is absent; otherwise the index of its first occurrence |
| PyText.RFind | email_trade_bot.py:8 | `content.rfind('}')`: -1 exactly when the character is absent; otherwise the index of its last occurrence |
| PyText.Contains | email_trade_bot.py:148 | `"attachment" not in content_disposition`: true exactly when the needle occurs at some index |
| PyText.Upper | email_trade_bot.py:27 | `.upper()` keeps the length and upper-cases each character |
| PyText.Capitalize | email_trade_bot.py:28 | `.capitalize()` keeps the length, upper-cases the first character and lower-cases the rest |
| PyText.CapitalizeMatchesIgnoringCase | email_trade_bot.py:28-35 | for a word like "Buy", `s.capitalize() == word` holds exactly when `s` and the word agree ignoring case |
| SignalExtraction.CleanJsonString | email_trade_bot.py:1-13 | None exactly when the body lacks a `{` or a `}` |
| SignalExtraction.CleanJsonStringSlice | email_trade_bot.py:7-10 | the payload runs from the first `{` to the last `}` inclusive, and is empty when the last `}` comes before the first `{` |
| SignalExtraction.PayloadPresentIff | email_trade_bot.py:7-23 | the payload is present and non-empty exactly when some `{` precedes some `}` |
| SignalExtraction.NoBracketsNoPayload | email_trade_bot.py:20-23 | a body without both brackets is rejected before `json.loads` is called |
| SignalExtraction.SignalFromObject | email_trade_bot.py:26-39 | on a parsed object: an empty or missing symbol or side is rejected; otherwise the signal is a call exactly when side is "buy" in any casing, a put exactly when it is "sell", and "unknown side" for every other side; the symbol is upper-cased |
| SignalExtraction.ClassifySide | email_trade_bot.py:27-39 | an empty symbol or side gives MissingField; otherwise the side maps to a call exactly when it is "buy" in any casing, a put exactly when it is "sell", and UnknownSide for every other side |
| SignalExtraction.AcceptedSignal | email_trade_bot.py:20-39 | an accepted signal came from a non-empty payload that parsed to an object with string "symbol" and "side"; its symbol is non-empty and upper-cased, and its direction matches the side ignoring case |
| Database.LogKeepsValid | database.py:11-65 | `log_trade` keeps `id` a primary key: one row per id, listed once in rowid order |
| Database.LogInsertsNewId | database.py:32-64 | for an unknown id the call succeeds exactly when asset, direction, amount and duration are given. It then adds exactly one row, keeps the others and fills the defaults: timestamp now, status "open", result "pending", profit 0, balance_after 0 |
| Database.LogUpdatesExistingId | database.py:32-47 | for a known id the call succeeds, adds no row and changes no other row. It sets only result, profit, balance_after and status, defaulting to NULL, 0, NULL and "completed" |
| Database.LogNeedsId | database.py:32 | a payload without "id" raises KeyError and leaves the table unchanged |
| Database.LogUpdateIdempotent | database.py:37-47 | repeating an update of a known id changes nothing |
| Database.ReplayedInsertClearsBalance | database.py:42-63 | repeating an insert payload without balance_after does change the row: the insert stored 0 and the repeat stores NULL |
| Database.ReplayKeepsValid | database.py:11-65 | any sequence of calls keeps `id` a primary key |
| Database.ReplayKeysBounds | database.py:25-65 | rows are never deleted, and every row is an old one or one a call named |
| Database.StepAddsId | database.py:32-64 | a call naming an id succeeds on that id whenever it has the insert columns or the row exists |
| Database.ReplayRowCount | database.py:25-65 | when each id's first write carries the insert columns, the table ends with exactly one row per distinct id, old or named |
| Database.TradeLedger.constructor | database.py:7-23 | `init_db` on a fresh file gives an empty, well-formed table |
| Database.TradeLedger.LogTrade | database.py:25-65 | the in-place update yields `Log`'s table and reports `Log`'s KeyError, leaving the table unchanged on error |
| Database.RowCountIsOrderLength | database.py:11 | the number of rows is the number of rowids |
| Database.ResultCountsBounded | database.py:78-83 | wins plus losses never exceed the completed count |
| Database.NoCompletedNoProfit | database.py:81-90 | without completed rows the profit sum is 0 (SQL NULL read as 0.0) |
| Database.CountCompletedOfListing | database.py:78-83 | `COUNT(*) WHERE status = 'completed'` over a listing counts its distinct completed ids |
| Database.WinRate | database.py:92 | 0 when there are no trades; otherwise within [0, 100] |
| Database.Aggregate | database.py:76-92 | wins plus losses are at most the total; the win rate is in [0, 100]; all zeros when the total is 0 |
| Database.OpenRowNotCounted | database.py:83 | a row that is not completed changes none of the statistics |
| Database.CompletedRowCounted | database.py:77-83 | a completed row adds one trade, one win or one loss according to its result, and its profit |
| Database.GetStats | database.py:74-100 | total_trades is the number of completed rows; wins plus losses are at most that; the win rate is in [0, 100]; all zeros without completed rows |
| Database.EmptyLedgerStats | database.py:74-100 | the statistics of a fresh table are all zero |
| Database.DefaultRecentTrades | database.py:67-70 | `get_recent_trades()` without an argument returns 50 rows, or every row when there are fewer |
| Database.InsertByTime | database.py:70 | inserting into a newest-first listing keeps it newest first and adds exactly that row |
| Database.SortNewestFirst | database.py:70 | `ORDER BY timestamp DESC` yields a permutation of the rows in non-increasing timestamp order |
| Database.PrefixIsNewest | database.py:70 | no row past a LIMIT cut-off is newer than a row before it |
| Database.ListedRowsAreTableRows | database.py:70-72 | every row in a reordering of the table is a table row, stored under its own id |
| Database.GetRecentTrades | database.py:67-72 | exactly `limit` rows, or all rows when there are fewer or the limit is negative; newest first; each a table row, none twice; no omitted row newer than a returned one |
| TradeExecutor.SettlementWrites | email_trade_bot.py:73-98 | settlement writes the completed record exactly once when check_win, get_balance and get_payout_by_asset all return, and writes nothing when one raises |
| TradeExecutor.LedgerWritesOfSignal | email_trade_bot.py:20-101 | the writes are nothing unless the signal is valid, the asset is open and `buy` succeeded with an id. Then: the open record (amount 50, duration 60, "open"/"pending"), followed by the completed record for the same id when settlement returned |
| TradeExecutor.ProfitExamples | email_trade_bot.py:44-87 | a win at payout 85 earns 42.5; a loss costs the 50 stake; a win never loses money at a non-negative payout |
| TradeExecutor.BrokerCallsOfSignal | email_trade_bot.py:20-58 | a rejected signal makes no call at all; `buy` is called exactly when the signal is valid and the asset reports open |
| TradeExecutor.OpenWriteEffect | email_trade_bot.py:61-69 | the open record always succeeds, leaves its id "open"/"pending" and touches no other row |
| TradeExecutor.SettledWriteEffect | email_trade_bot.py:89-95 | the completed record updates only its row, to "completed" with WIN or LOSS, the profit and the balance |
| TradeExecutor.TradeWritesOnLedger | email_trade_bot.py:61-98 | after both records the trade's row is completed with the profit formula and new balance; when settlement raised it stays open and pending; every other row is unchanged |
| TradeExecutor.WritesOfPurchase | email_trade_bot.py:54-98 | after a successful purchase the writes are the open record, then the completed record when settlement returned |
| TradeExecutor.TradeEffectOnLedger | email_trade_bot.py:47-106 | a valid signal writes exactly when the asset is open and `buy` succeeded. It changes at most the bought id's row and keeps every row open-and-pending or completed. That row ends completed (with result, profit and balance) or open when settlement raised |
| TradeExecutor.CompletedRowsStayCompleted | email_trade_bot.py:54-98 | a signal leaves every completed row completed, except possibly the row of the id `buy` returned, which is completed again once settlement returns |
| TradeExecutor.ReusedIdReopens | email_trade_bot.py:61-69 | an open record for an id with a completed row takes the UPDATE branch. The row goes back to "open"/"pending" with profit 0 and balance_after NULL, and keeps the earlier trade's asset, direction, amount, duration and timestamp |
| TradeExecutor.ReusedIdLeftOpen | email_trade_bot.py:54-98 | when `buy` returns the id of a completed trade and settlement then raises, that row ends open and pending with the earlier trade's asset and timestamp |
| TradeExecutor.WinningTradeScenario | email_trade_bot.py:44-95 | a winning trade "T1" at payout 85 adds one row: completed, WIN, profit 42.5, amount 50, duration 60, on the resolved asset and with the new balance |
| TradeExecutor.ProcessEmailSignal | email_trade_bot.py:15-106 | the effects are those of `SignalEffects`, and the ledger is the old one with those writes applied in order |
| TradeExecutor.ExecuteTrade | email_trade_bot.py:43-106 | resolve the asset and buy, then record; the effects and the ledger as above |
| TradeExecutor.OpenWriteSucceeds | email_trade_bot.py:61-69 | the open record never raises KeyError, and its id is in the table afterwards |
| TradeExecutor.RecordTrade | email_trade_bot.py:56-98 | the open write followed by settlement: the effects and the resulting ledger |
| TradeExecutor.Settle | email_trade_bot.py:73-98 | when every settlement call returns, the ledger receives the completed record; when one raises, the ledger is unchanged |
| MailboxBody.FirstPlainText | email_trade_bot.py:142-152 | the body is the text of the first inline plain-text part that decodes, or "" when there is none |
| MailboxBody.SelectBody | email_trade_bot.py:142-152 | the loop over `msg.walk()` returns exactly `FirstPlainText` |
| MailboxBody.HandleMessage | email_trade_bot.py:142-159 | a single part that fails to decode ends in the listener's error path; an empty body is skipped; any other body is processed as in `ProcessEmailSignal`; the ledger is untouched unless processed |
| MailboxBody.SkippedPartIgnored | email_trade_bot.py:144-152 | an attachment, a non-plain-text part or a part that fails to decode has no influence on the body |
| MailboxBody.EmptyFirstPartWins | email_trade_bot.py:148-159 | an empty first inline text part ends the search, so the message is skipped as empty even if a later part has text |

## Left out

- The IMAP session is not modelled: connect, login, search, fetch, subject decoding, the per-message loops, the back-off sleep and `mail.close()` (email_trade_bot.py:108-141 and the rest of the listener). Neither is `start_bot_background`. These are network I/O. A fetched message enters the model as a `Message`.
- The brokerage client, and `pyquotex` with its `config.py`, are not part of this model. Each call is represented only by what it returned or that it raised.
- `json.loads` is a parameter. JSON parsing itself is not modelled.
- Clock: `time.time()` is the parameter `now`. All writes of one signal share one reading.
- Floating point is not modelled. Amounts, profits, balances and timestamps are exact reals, so `round(…, 2)` in `get_stats` is not applied.
- PyText.Upper: does not cover non-ASCII case mapping. Python also maps letters such as 'ä' or 'ſ' (which upper-cases to 'S'). The model changes ASCII letters only.
- PyText.Capitalize: the same ASCII-only restriction.
- The exception branch of `clean_json_string` (lines 12-13) is not modelled. It can only fire on a non-string argument, and the model's argument is always a string.
- Trade ids are strings, as the TEXT primary key stores them. Other id types and explicit `None` values in the payload dictionary are not modelled: a missing key is `None` in `TradeData`.
- `log_trade` raising for reasons other than a missing key (a locked or corrupt database file) is not modelled.
- Running `init_db` on an existing file keeps the rows it already has. The model covers only the fresh-file case, as the constructor.
- Database.GetRecentTrades: does not fix the order among rows with equal timestamps. SQLite leaves that order unspecified; the model only promises some order.
- `print` output and the log lines are not modelled.
- Not part of this model: `dashboard_app.py`, `static/script.js` and `simple_trade.py`. They read the two queries or place trades by hand.
- TradeExecutor.TradeEffectOnLedger: does not promise that a trade's status only moves from "open" to "completed". The source breaks that when `buy` returns an id already in the table. The open record then takes the UPDATE branch of `log_trade` (database.py:35-47) and resets a completed row to open and pending, keeping the earlier trade's asset and timestamp. ReusedIdReopens and ReusedIdLeftOpen prove this, and the model keeps the source's behaviour. For every other row, CompletedRowsStayCompleted proves that completed stays completed.
- TradeExecutor.WinningTradeScenario: states one concrete run. The general statement is TradeEffectOnLedger.
