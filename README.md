# gmadaptor order lifecycle, modelled in Dafny

gmadaptor connects a trading engine to a broker's trading terminal. The
terminal has no programmatic order interface: orders and cancellations are
appended as rows to per-account inbox CSV files, and the terminal reports
cash, orders, status changes and fills in per-account outbox CSV files. The
adaptor converts security codes between the two naming schemes. It writes
orders under a per-account lock, then polls the outbox files until a budget
of milliseconds is spent. It aggregates the fills of an order into a trade
event, with fees and a verdict on whether the data is complete, and answers
each HTTP handler with a status code, a message and a dictionary.

The model has one module per source file:

| module | file | source |
|---|---|---|
| `Values` | values.dfy | optional values, timestamps, dictionary values, handler replies |
| `Text` | text.dfy | `find`, `split`, `join`, integer and zero-padded numerals |
| `Utils` | utils.dfy | gmadaptor/common/utils.py |
| `HttpHelper` | http_helper.dfy | gmadaptor/httpserver/helper.py |
| `GmCodes` | gm_codes.dfy | gmadaptor/gmclient/types.py |
| `CommonTypes` | common_types.dfy | gmadaptor/common/types.py |
| `StockNames` | stock_names.dfy | gmadaptor/common/stock_name_conversion.py |
| `CsvData` | csv_data.dfy | gmadaptor/gmclient/csvdata.py |
| `Wrapper` | wrapper.dfy | gmadaptor/gmclient/wrapper.py |
| `CsvUtils` | csv_utils.dfy | gmadaptor/gmclient/csv_utils.py |
| `HelperFunctions` | helper_functions.dfy | gmadaptor/gmclient/heper_functions.py |
| `Handlers` | handlers.dfy | gmadaptor/gmclient/handlers.py |

Modelling choices:

- Money is an exact `real`. `math_round` is rounding half away from zero on
  reals.
- A file is given as its decoded rows, or `None` when it does not exist.
- A polling loop reads a sequence of snapshots of the file. The `k`-th read
  sees snapshot `k`, or the last snapshot once they run out. Each
  unsuccessful read uses up 200 ms of the budget.
- "Today", the new order's sid (a `uuid1` in the source), the fee schedule
  and the simulated-mode flag are parameters.
- The configured access token, the set of existing folders and the cell
  parsers (`int`, `float`, `strptime`) are parameters too.
- `TradeEvent` is a class whose fields the aggregation overwrites in place.
  The registry, the account locks and the inbox files are class state.
- An exception is a reply `Raised(name)` in a handler. In a decoder it is
  `None`.
- The handlers' event maps hold the events themselves. Their dictionaries
  are built once, when the reply is formed (`Handlers.EventsValue`), and
  `Handlers.EventsValueRoundTrip` shows that this loses nothing.

The repository's files do not fit together as they stand. The model uses
one fixed reading of each mismatch:

- The status scan the handlers import as `csv_get_order_status_change_data_by_sid`
  is `csv_get_order_status_change_data`.
- The list scan `csv_get_order_status_change_data_by_sidlist` is defined
  nowhere. It is modelled as its caller uses it (`CsvUtils.StatusChangeBySidList`).
- `GMOrderReport` is `gm_order_status` and `GMCash` is `gm_cash`.
- `GMOrderBiz` and `GMOrderType` are the terminal's `OrderBiz` and
  `OrderType`. `BidType` is the engine's `OrderType`.
- Some status names are missing from the engine's enumeration. The model
  reads `ALL_TRANSACTIONS` as `ALL_TX`, `PARTIAL_TRANSACTION` as
  `PARTIAL_TX`, `CANCEL_ALL_ORDERS` as `CANCELED` and `NO_DEAL` as
  `SUBMITTED`.
- `helper_reset_event` reads `event.create_at`. `TradeEvent` stores only
  `created_at`, so as written every reset raises AttributeError. The model
  uses `created_at`.
- The aggregation reads `exec_rpt.order_side`. The model uses the fill's
  `order_business`.
- `helper_load_trade_event` reads `order_status_record.order_side`, which
  neither order record has. The model uses the record's `order_business`.
- `helper_get_order_from_status_change_file` is
  `helper_get_order_status_change_data`. The handler reads its list
  result as "the last row, or none".
- `helper_get_orders_from_status_change_by_sidlist` is
  `helper_get_order_status_change_by_sidlist`.
- `helper_get_exec_reports_by_sid` is `helper_sum_exec_reports_by_sid`.
- `csv_get_exec_report_data(account_id)` and
  `csv_get_order_status(account_id)` read that account's file. They return
  the records, not their dictionaries.
- The fills poll takes the scan's `reports`. As written, it keeps the whole
  dictionary the scan returns. Its length test always holds, and the
  aggregation then iterates the dictionary's keys and reads `.sid` of a
  string. That raises AttributeError whether or not the order has fills.
  The model takes the dictionary's `reports` entry. It treats a missing
  entry (the scan's `{"result": 0}` when the order has no fills yet) as no
  fills, and polls again.
- The two-argument call of `csv_generate_cancel_order` leaves its unused
  `symbol` out.
- The status poll reads the status-change file with the order-status
  decoder. That decoder keeps the order type and creation time that loading
  an event needs, and `CsvData.StatusChangeAgrees` shows it agrees with the
  status-change decoder on every shared column.

In live mode the fee code charges the minimum commission per fill and the
transfer fee on every symbol. The model follows the code.

## Model

| member | source | states |
|---|---|---|
| Utils.RoundNonNegative | gmadaptor/common/utils.py:11-12 | for x ≥ 0, rounding to d decimals is ⌊x·10^d + ½⌋ / 10^d, so halves go up |
| Utils.RoundNegative | gmadaptor/common/utils.py:9-10 | for x < 0, rounding truncates x·10^d − ½ toward zero, so halves go away from zero |
| Utils.RoundOdd | gmadaptor/common/utils.py:9-12 | rounding −x gives minus the rounding of x |
| Utils.RoundAccuracy | gmadaptor/common/utils.py:1-12 | the rounded value is within ½·10^−d of x |
| Utils.RoundIsMultiple | gmadaptor/common/utils.py:9-12 | the result is a whole number of units of 10^−d |
| Utils.RoundOfMultiple | gmadaptor/common/utils.py:9-12 | a multiple of 10^−d is left unchanged |
| Utils.RoundIdempotent | gmadaptor/common/utils.py:9-12 | rounding twice is rounding once |
| Utils.RoundMonotone | gmadaptor/common/utils.py:9-12 | on non-negative values rounding keeps order and stays non-negative |
| Utils.RoundOfSumOfRounded | gmadaptor/common/utils.py:9-12 | a sum of two rounded values needs no further rounding |
| Utils.SafeFloat | gmadaptor/common/utils.py:15-19 | a missing or empty cell gives 0.0; any other text gives what the parser gives |
| Utils.SafeInt | gmadaptor/common/utils.py:22-26 | a missing or empty cell gives 0; any other text gives what the parser gives |
| HttpHelper.CheckRequestToken | gmadaptor/httpserver/helper.py:8-13 | a request is accepted iff it carries a token equal to the configured one |
| HttpHelper.MakeResponse | gmadaptor/httpserver/helper.py:16-26 | the envelope has exactly the keys status, msg and data, and data is passed through |
| HttpHelper.ResponseMessageIsStatus | gmadaptor/httpserver/helper.py:19-23 | with no message, msg is the decimal text of the status code and reads back as it |
| HttpHelper.ResponseMessageGiven | gmadaptor/httpserver/helper.py:19-25 | a given message is used as it is, and status is the code's integer value, plain or enumerated |
| HttpHelper.TimeoutClamped | gmadaptor/httpserver/helper.py:43-51 | for a minimum of 0 to 60 s, a given timeout lands in [minimum·1000 truncated to whole ms, 60000] ms and a longer timeout never gives fewer ms |
| HttpHelper.TimeoutInMs | gmadaptor/httpserver/helper.py:43-51 | for every input: no timeout gives the default in whole ms; a given timeout is moved into [minimum, 60] s, the minimum tested first, and truncated to whole ms |
| HttpHelper.Clamp | gmadaptor/httpserver/helper.py:46-49 | the clamped value lies in [minimum, 60] s whenever the minimum is at most 60, and a value already inside is kept |
| HttpHelper.TimeoutDefaults | gmadaptor/httpserver/helper.py:29-51 | with the default arguments (0.5 s minimum, 2 s default): no timeout gives 2000 ms, 0.1 s gives 500, 90 s gives 60000 and 1.2345 s gives 1234 |
| GmCodes.OrderBizFromCode | gmadaptor/gmclient/types.py:25-27 | a decoded business has the code it was decoded from |
| GmCodes.OrderBizMatchesTable | gmadaptor/gmclient/types.py:9-27 | the business enumeration is exactly the stock rows (1 buy, 2 sell) of the terminal's table |
| GmCodes.OrderBizRoundTrip | gmadaptor/gmclient/types.py:25-27 | every business decodes back from its code |
| GmCodes.GmOrderTypeFromCode | gmadaptor/gmclient/types.py:46-51 | a decoded order type has the code it was decoded from |
| GmCodes.GmOrderTypeMatchesTable | gmadaptor/gmclient/types.py:30-51 | every enumerated order type (1, 22-25) is in the table; 20 and 21 are the only table codes left out |
| GmCodes.GmOrderTypeRoundTrip | gmadaptor/gmclient/types.py:46-51 | every order type decodes back from its code |
| GmCodes.ExecTypeFromCode | gmadaptor/gmclient/types.py:69-80 | a decoded execution kind has the code it was decoded from |
| GmCodes.ExecTypeMatchesTable | gmadaptor/gmclient/types.py:54-80 | the execution-kind enumeration is exactly the table, and 15 is the trade |
| GmCodes.ExecTypeRoundTrip | gmadaptor/gmclient/types.py:69-80 | every execution kind decodes back from its code |
| GmCodes.GmOrderStatusFromCode | gmadaptor/gmclient/types.py:97-107 | a decoded terminal status has the code it was decoded from |
| GmCodes.GmOrderStatusMatchesTable | gmadaptor/gmclient/types.py:83-107 | the status enumeration (0,1,2,3,5,6,8,9,10,12) is exactly the table |
| GmCodes.GmOrderStatusRoundTrip | gmadaptor/gmclient/types.py:97-107 | every terminal status decodes back from its code |
| GmCodes.CodesDistinct | gmadaptor/gmclient/types.py:25-107 | within each enumeration no two members share a code |
| CommonTypes.StatusConvert | gmadaptor/common/types.py:43-60 | the conversion never yields RECEIVED |
| CommonTypes.StatusConvertTable | gmadaptor/common/types.py:43-60 | 1/6/10 give SUBMITTED, 2 PARTIAL_TX, 3 ALL_TX, 5/12 CANCELED, every other code ERROR, each as an iff |
| CommonTypes.StatusConvertOnto | gmadaptor/common/types.py:35-60 | every engine status except RECEIVED is reached from some terminal code |
| CommonTypes.SideConvertTable | gmadaptor/common/types.py:13-19 | a side exists exactly for the terminal's stock business codes, 1 buy and 2 sell; the engine's own −1 gives none |
| CommonTypes.KindConvertTable | gmadaptor/common/types.py:26-32 | LIMIT iff code 1 and MARKET iff code 24; the other market codes and the engine's own 2 give none |
| CommonTypes.TradeEvent.constructor | gmadaptor/common/types.py:92-124 | a new event stores every field given, the sid as entrust_no, with no filled amount and not invalid |
| CommonTypes.EventDict | gmadaptor/common/types.py:126-143 | the dictionary has exactly the fifteen keys of `toDict` |
| CommonTypes.EventDictRoundTrip | gmadaptor/common/types.py:126-143 | an event reads back from its dictionary except for the invalid flag; order_id comes back from "eid" and avg_price from "average_price" |
| StockNames.Joinquant | gmadaptor/common/stock_name_conversion.py:6-13 | for a code with exactly one '.', the converted code also has exactly one '.' |
| StockNames.Myquant | gmadaptor/common/stock_name_conversion.py:16-23 | for a code with exactly one '.', the converted code also has exactly one '.' |
| StockNames.Dotted | gmadaptor/common/stock_name_conversion.py:10-12 | joining two names without '.' gives a code that splits back into exactly those two names |
| StockNames.JoinquantOfExact | gmadaptor/common/stock_name_conversion.py:6-13 | SHSE.n becomes n.XSHG and SZSE.n becomes n.XSHE |
| StockNames.TerminalRoundTrip | gmadaptor/common/stock_name_conversion.py:6-23 | for an exchange part exactly SHSE or SZSE, converting to the engine's form and back gives the original code |
| StockNames.EngineRoundTrip | gmadaptor/common/stock_name_conversion.py:6-23 | for a suffix exactly XSHG or XSHE, converting to the terminal's form and back gives the original code |
| StockNames.ContainmentBreaksRoundTrip | gmadaptor/common/stock_name_conversion.py:9-11 | matching is by containment, so XSHSE.600000 is converted and does not come back |
| StockNames.JoinquantOfEngineForm | gmadaptor/common/stock_name_conversion.py:6-13 | converting an already converted code with a numeric part changes nothing |
| Text.Split | gmadaptor/common/stock_name_conversion.py:8 | splitting gives one piece more than there are separators, and no piece holds a separator |
| Text.SplitJoin | gmadaptor/common/stock_name_conversion.py:8 | splitting undoes joining when no part holds the separator |
| CsvData.TimeFormatChoice | gmadaptor/gmclient/csvdata.py:9-14 | the fractional-second format is chosen iff the text has a '.', and both formats end in "+08:00" |
| CsvData.SymbolCell | gmadaptor/gmclient/csvdata.py:73 | a decoded symbol comes from a "symbol" column with exactly one '.' |
| CsvData.Cell | gmadaptor/gmclient/csvdata.py:32-39 | a column lookup succeeds exactly when the row has the column, and gives that column's text |
| CsvData.DecodeCash | gmadaptor/gmclient/csvdata.py:31-39 | decodes exactly the record the eight literal columns describe |
| CsvData.CashColumnError | gmadaptor/gmclient/csvdata.py:31-39 | reading a cash column raises KeyError iff the column is missing, and ValueError iff it is present, numeric and its text is not a number |
| CsvData.CashError | gmadaptor/gmclient/csvdata.py:31-39 | `gm_cash(row)` raises nothing iff the row decodes; otherwise it raises what the first failing column, in reading order, raises |
| CsvData.CashErrorOfNav | gmadaptor/gmclient/csvdata.py:32-34 | after a good account id and market value, a missing "nav" raises KeyError and a non-numeric one ValueError |
| CsvData.CashDictRatio | gmadaptor/gmclient/csvdata.py:44-51 | the dictionary fails exactly when the net value is 0; otherwise total is the net value and ppnl·nav gives back the profit |
| CsvData.DecodePosition | gmadaptor/gmclient/csvdata.py:71-80 | decodes exactly the record the nine literal columns describe, the symbol converted to the engine's form |
| CsvData.PositionDictOfRow | gmadaptor/gmclient/csvdata.py:82-90 | shares is the row's volume, sellable its available_now(avl_now), price its vwap and code its converted symbol |
| CsvData.DecodeOrderReport | gmadaptor/gmclient/csvdata.py:123-137 | decodes exactly the record the literal columns describe, the bracketed column names included |
| CsvData.OrderReportDictOfRow | gmadaptor/gmclient/csvdata.py:139-153 | cid is cl_ord_id, filled the filled volume, side the raw business, status and reason the raw codes, request_id "xxxx" |
| CsvData.DecodeExecReport | gmadaptor/gmclient/csvdata.py:187-199 | decodes exactly the record the literal columns describe |
| CsvData.ExecReportDictOfRow | gmadaptor/gmclient/csvdata.py:201-212 | the execution kind is under "status", with the fill's own price and volume and cl_ord_id as cid |
| CsvData.DecodeStatusChange | gmadaptor/gmclient/csvdata.py:247-260 | decodes exactly the record the twelve literal columns describe, the symbol converted to the engine's form |
| CsvData.StatusChangeAgrees | gmadaptor/gmclient/csvdata.py:244-260 | a row the order-status decoder accepts is accepted by the status-change decoder, with equal shared fields |
| Wrapper.AccountLock.constructor | gmadaptor/gmclient/wrapper.py:139 | a new lock is free |
| Wrapper.AccountLock.Acquire | gmadaptor/gmclient/csv_utils.py:96 | a free lock becomes held, counted once more |
| Wrapper.AccountLock.Release | gmadaptor/gmclient/csv_utils.py:129 | a held lock becomes free |
| Wrapper.Registry.constructor | gmadaptor/gmclient/wrapper.py:14-15 | the registry starts with no output folder and no accounts |
| Wrapper.Registry.AccountInfo | gmadaptor/gmclient/wrapper.py:107-112 | the entry exists exactly for a registered id (`check_gm_account`) |
| Wrapper.Registry.OutCsv | gmadaptor/gmclient/wrapper.py:26-78 | an output file path exists exactly for a registered id |
| Wrapper.OutPathsDistinct | gmadaptor/gmclient/wrapper.py:26-78 | two different (account, file) pairs never share an output path |
| Wrapper.Registry.Start | gmadaptor/gmclient/wrapper.py:115-148 | a missing output folder gives −1 with nothing registered; otherwise the accounts before the first missing input folder are registered, each with a new free lock, and the result is 0 iff there is no missing folder |
| Wrapper.FirstMissing | gmadaptor/gmclient/wrapper.py:126-136 | the accounts before the position have input folders, and the account at it has none |
| Wrapper.InboxNameRoundTrip | gmadaptor/gmclient/wrapper.py:89-91 | the inbox name is eight digits YYYYMMDD that read back as the date, then the suffix |
| Wrapper.InboxNamesDiffer | gmadaptor/gmclient/wrapper.py:89-104 | the order inbox and the cancel inbox of a day are different files |
| Wrapper.InboxPath | gmadaptor/gmclient/wrapper.py:81-104 | an inbox path exists exactly when the account's input folder exists |
| Wrapper.InboxAsWrittenMisses | gmadaptor/gmclient/csv_utils.py:85 | the getter called with the id looks in a folder named after the id's second character, or raises for a one-character id |
| CsvUtils.GenerateOrder | gmadaptor/gmclient/csv_utils.py:72-129 | nothing written and no sid for an unknown account, missing folder or missing lock; otherwise exactly one order row appended, after the header in a new file, and the new sid returned; the lock ends free |
| CsvUtils.GenerateCancelOrder | gmadaptor/gmclient/csv_utils.py:132-168 | the same failure cases; otherwise one "sid,comments," row per sid in list order, after the header in a new file, and 0 returned; the lock ends free |
| CsvUtils.WrittenCodes | gmadaptor/gmclient/csv_utils.py:111-117 | the business written is 2 iff the sell code is passed, and the type 24 iff the market code is passed |
| CsvUtils.OrderRowCells | gmadaptor/gmclient/csv_utils.py:119-121 | an order row splits back into its eight cells, the comment empty |
| CsvUtils.HeaderCells | gmadaptor/gmclient/csv_utils.py:107-109 | the order header splits into the eight column names |
| CsvUtils.AppendKeepsHeaderOnce | gmadaptor/gmclient/csv_utils.py:101-109 | appending non-header rows keeps the header once, as the first line |
| CsvUtils.OrderRowIsNotHeader | gmadaptor/gmclient/csv_utils.py:107-121 | no order row is the header line |
| CsvUtils.OrderInboxHeaderOnce | gmadaptor/gmclient/csv_utils.py:101-121 | however many orders are written, the order inbox has its header once, first |
| CsvUtils.MatchingExecMembers | gmadaptor/gmclient/csv_utils.py:197-202 | exactly the rows of the order are collected |
| CsvUtils.ExecReportsBySid | gmadaptor/gmclient/csv_utils.py:187-213 | none for a missing file; else the order's rows in file order, 0 when none, 2 when the last is a trade, else 1 |
| CsvUtils.LastMatch | gmadaptor/gmclient/csv_utils.py:225-231 | a found row is a row of the file with the order's sid |
| CsvUtils.LastMatchIsLast | gmadaptor/gmclient/csv_utils.py:225-235 | there is a row iff some row has the sid, and no later row has it |
| CsvUtils.StatusChangeBySid | gmadaptor/gmclient/csv_utils.py:216-243 | none for a missing file; else the order's last row, 0 when none, 2 when its status is 3/5/8/9/12, else 1 |
| CsvUtils.ClassifiesWrongRow | gmadaptor/gmclient/csv_utils.py:208 | reading the file's last row misclassifies an order followed by another order's row, in both scans |
| CsvUtils.ClassifiesSameWhenLast | gmadaptor/gmclient/csv_utils.py:237-243 | the two classifications agree when the order's row is the file's last |
| CsvUtils.LastPerSid | gmadaptor/gmclient/heper_functions.py:196-199 | each entry is a row of the file, under that row's own sid |
| CsvUtils.StatusChangeBySidList | gmadaptor/gmclient/heper_functions.py:196-202 | −1 iff no listed order has a row; 0 iff some do and every listed order has a terminal row; the rows are the last per sid |
| CsvUtils.TodayOrdersMembers | gmadaptor/gmclient/csv_utils.py:255-267 | exactly the rows created on today's date are kept |
| CsvUtils.GetOrderStatus | gmadaptor/gmclient/csv_utils.py:247-270 | none for a missing file; else the dictionaries of today's orders, in file order |
| CsvUtils.UnfinishedOrdersMembers | gmadaptor/gmclient/csv_utils.py:292-306 | exactly today's rows whose status is not 3, 5, 8 or 12 are kept, so a suspended (9) order counts as unfinished although the status scan counts it as terminal |
| CsvUtils.GetUnfinishedEntrusts | gmadaptor/gmclient/csv_utils.py:273-309 | none for a missing file; else today's unfinished orders in file order |
| CsvUtils.GetExecReportData | gmadaptor/gmclient/csv_utils.py:171-184 | none for a missing file; else one dictionary per fill, in file order |
| HelperFunctions.FeeAtLeastMinimum | gmadaptor/gmclient/heper_functions.py:52-68 | a fill costs at least the minimum commission in simulated mode and at least the minimum rounded to cents in live mode, and a live fee is a whole number of cents |
| HelperFunctions.FeeMonotone | gmadaptor/gmclient/heper_functions.py:52-68 | a larger fill never costs less, a sell never less than a buy, and the stamp duty does not affect a buy |
| HelperFunctions.FeeExamples | gmadaptor/gmclient/heper_functions.py:43-68 | at the rates the docstring describes in words (commission 3 and transfer fee 0.2 per 10000, stamp duty 1 per 1000, minimum 5): a simulated sell of 20000 costs 26.00, a live one 26.40, and a small simulated buy the minimum |
| HelperFunctions.SetGmRoundTrip | gmadaptor/gmclient/heper_functions.py:143-154 | sell maps to 2 and everything else to 1; market maps to 24 and everything else to 1; each converts back to the side or kind |
| HelperFunctions.LoadTradeEvent | gmadaptor/gmclient/heper_functions.py:22-40 | the new event carries the record's converted code and converted side, kind and status, with no fills |
| HelperFunctions.LoadedEvent | gmadaptor/gmclient/heper_functions.py:22-40 | a decoded record's code is kept; the event has the record's sid and the engine status of its status, never RECEIVED |
| HelperFunctions.ResetEvent | gmadaptor/gmclient/heper_functions.py:135-140 | the average price, filled volume and amount and fees are cleared, and the receive time becomes the creation time; nothing else changes |
| HelperFunctions.SumAmountCents | gmadaptor/gmclient/heper_functions.py:86-105 | the total of per-fill amounts rounded to cents is already whole cents, so the final rounding changes nothing |
| HelperFunctions.SumsAppend | gmadaptor/gmclient/heper_functions.py:82-94 | the volume, amount and fee totals of two runs of fills add up |
| HelperFunctions.SumFills | gmadaptor/gmclient/heper_functions.py:82-94 | the loop's totals are those of the order's own fills, in file order, with the last fill's receive time |
| HelperFunctions.StoreTotals | gmadaptor/gmclient/heper_functions.py:96-109 | the event gets the unrounded average price, the filled volume, the amount and fees rounded to cents, and the last fill's receive time |
| HelperFunctions.SumExecReports | gmadaptor/gmclient/heper_functions.py:72-131 | the event ends as the verdict on its order's fills says, and the result is the verdict's stop flag |
| HelperFunctions.JudgeProperties | gmadaptor/gmclient/heper_functions.py:111-131 | a completed ALL_TX order is filled in full; a retry leaves a cleared ALL_TX order or a partial/canceled one within its volume; no fill status exceeds a non-negative volume; only the totals change; average price times filled gives the amount |
| HelperFunctions.JudgeComplete | gmadaptor/gmclient/heper_functions.py:111-118 | an ALL_TX order whose fills add up to its volume is done and filled in full |
| HelperFunctions.JudgeVerdict | gmadaptor/gmclient/heper_functions.py:111-131 | the verdict's bounds: a completed ALL_TX order is filled in full; a retry is a cleared ALL_TX order or a partial or canceled one within its volume |
| HelperFunctions.JudgeResets | gmadaptor/gmclient/heper_functions.py:111-131 | the verdict changes only the totals that a reset clears |
| HelperFunctions.JudgeAverage | gmadaptor/gmclient/heper_functions.py:96-105 | after the verdict, the average price times the filled volume gives back the filled amount |
| HelperFunctions.AggregateAverage | gmadaptor/gmclient/heper_functions.py:96-105 | the unrounded average price times the filled volume gives back the filled amount |
| HelperFunctions.PollExec | gmadaptor/gmclient/heper_functions.py:211-228 | none for a missing file; else the fills of the last read, with the event as the poll leaves it |
| HelperFunctions.ExecPollFinal | gmadaptor/gmclient/heper_functions.py:218-223 | because the event is reset before every read, the final event is the verdict on the last read's fills alone, or the cleared event |
| HelperFunctions.ExecPollFirstDone | gmadaptor/gmclient/heper_functions.py:218-223 | a first read that completes the order ends the poll with that verdict |
| CsvUtils.MatchingExecIdempotent | gmadaptor/gmclient/csv_utils.py:197-202 | selecting an order's fills from rows that are already its fills changes nothing |
| HelperFunctions.PollStatus | gmadaptor/gmclient/heper_functions.py:159-181 | none for a missing file; else the rows and the budget the poll leaves |
| HelperFunctions.StatusPollResult | gmadaptor/gmclient/heper_functions.py:165-181 | at most one row, the order's own; budget is left only after a terminal row; a first read that is terminal keeps the whole budget |
| HelperFunctions.StatusPollFirstTerminal | gmadaptor/gmclient/heper_functions.py:167-175 | a first read that finds the order terminal ends the poll with that row and the whole budget |
| HelperFunctions.StatusPollMismatch | gmadaptor/gmclient/heper_functions.py:171-175 | as written, a filled order is polled until the budget runs out, and a missing order raises; the intended poll stops at once |
| HelperFunctions.PollCancel | gmadaptor/gmclient/heper_functions.py:185-207 | none for a missing file; else the rows the poll over the sid list leaves, with a 2000 ms budget |
| HelperFunctions.CancelPollResult | gmadaptor/gmclient/heper_functions.py:195-207 | every entry is a listed order's row under its sid, and a first read with every listed order terminal is the result |
| HelperFunctions.CancelPollListed | gmadaptor/gmclient/heper_functions.py:195-205 | every read of the cancel poll keeps only rows of listed orders, each under its own sid |
| Handlers.WriterArgsMismatch | gmadaptor/gmclient/handlers.py:105-110 | mapping side and kind twice writes every order as a limit buy; passing the engine's codes writes the intended side and type |
| Handlers.TradeOperation | gmadaptor/gmclient/handlers.py:94-137 | a malformed code raises with nothing written; a failed write gives 401 with no poll; otherwise one order row with the mapped side and type is appended and the reply is that of the polls; the lock ends free |
| Handlers.AwaitTrade | gmadaptor/gmclient/handlers.py:115-137 | 500 when no status row is found or the fills file is missing; the loaded event without fills for a non-fill status; the event with its fills otherwise |
| Handlers.TradeOutcomeBounded | gmadaptor/gmclient/handlers.py:117-137 | a returned event is the order's own, never filled beyond a non-negative volume, filled only under a fill status, and average price times filled gives the amount |
| Handlers.FillsOfBounded | gmadaptor/gmclient/handlers.py:123-137 | the same bounds for the event built from a known status row |
| Handlers.ExecPollBounded | gmadaptor/gmclient/handlers.py:130-132 | the fills poll keeps the order's sid, status and volume, and stays within a non-negative volume |
| Handlers.JudgeBounded | gmadaptor/gmclient/handlers.py:130-137 | the verdict on an order with a fill status keeps its sid, status and volume, and fills it at most up to a non-negative volume |
| Handlers.FilledOrderReported | gmadaptor/gmclient/handlers.py:117-137 | an order filled at the first status read, whose fills are all in the first fills read, is returned ALL_TX and filled in full |
| Handlers.FilledOrderAsWritten | gmadaptor/gmclient/heper_functions.py:167-179 | with the status poll as written, that order is returned with nothing filled, because the poll spends the whole budget |
| Handlers.EventsValueRoundTrip | gmadaptor/gmclient/handlers.py:161-169 | the reply data has one entry per event, and each entry reads back as its event |
| Handlers.CancelEntrusts | gmadaptor/gmclient/handlers.py:140-169 | a missing list gives 401 with nothing written; a failed write gives 401; otherwise one cancellation row per sid is appended and the reply is that of the poll; the lock ends free |
| Handlers.AwaitCancel | gmadaptor/gmclient/handlers.py:153-169 | a missing status-change file raises; a malformed code raises; otherwise 200 with the event of each row found |
| Handlers.CollectCancelEvents | gmadaptor/gmclient/handlers.py:161-167 | the loop gives, under each row's sid, that row's completed event, or raises on a malformed code |
| Handlers.CancelEntry | gmadaptor/gmclient/handlers.py:164-167 | one pass stores the completed event under the row's sid |
| Handlers.CancelFoldKeys | gmadaptor/gmclient/handlers.py:161-167 | a pass that succeeds stores an event under exactly the sids it went through |
| Handlers.CancelFoldAll | gmadaptor/gmclient/handlers.py:161-167 | a pass over every row gives exactly the events of all rows |
| Handlers.CancelEventKeeps | gmadaptor/gmclient/handlers.py:164-166 | a cancelled order's event keeps its sid and the engine status of its row |
| Handlers.CancelReplyEntries | gmadaptor/gmclient/handlers.py:153-169 | a cancel reply lists exactly listed orders that have a row, each under its sid with the engine status of that row |
| Handlers.EntrustZeroingRedundant | gmadaptor/gmclient/handlers.py:193-203 | the handler's zeroing changes nothing, and an ALL_TX order is reported either filled in full or with no totals at all |
| Handlers.EntrustEntry | gmadaptor/gmclient/handlers.py:185-203 | ERROR and SUBMITTED orders are stored without fills; others with their fills, zeroed when an ALL_TX order's fills do not add up |
| Handlers.TodayEventsKeys | gmadaptor/gmclient/handlers.py:184-203 | every order of the day, and nothing else, is reported under its sid |
| Handlers.TodayEventsLast | gmadaptor/gmclient/handlers.py:185-203 | a sid's entry is the event of its last order row of the day |
| Handlers.CollectTodayEvents | gmadaptor/gmclient/handlers.py:184-205 | the loop gives the event of each of today's orders under its sid, or raises on a malformed code |
| Handlers.GetTodayAllEntrusts | gmadaptor/gmclient/handlers.py:172-205 | 500 for a missing order-status file; otherwise 200 with the events of today's orders, a missing fills file read as no fills |
| Handlers.GetBalance | gmadaptor/gmclient/handlers.py:59-75 | 401 for an unknown account; 401 for a cash file without rows; otherwise the reply built from the last row alone, which raises KeyError or ValueError as `gm_cash` does for a row that does not decode |
| Handlers.BalanceOfLastRow | gmadaptor/gmclient/handlers.py:65-75 | earlier rows do not matter; a success reports the last row's net value as total and a ratio that gives back its profit; a last row that does not decode raises KeyError or ValueError, whichever `gm_cash` raises for it |

## Left out

- Real I/O is not modelled: opening files, `csv.DictReader`, the byte-order mark, `path.exists`, `normpath` and `expanduser`. Files are decoded rows, and folder existence is a set of paths.
- Sleeping and the wall clock are not modelled. A poll is a sequence of snapshots with a millisecond budget, and "today" is a parameter.
- Threads are not modelled. A lock is a held flag with an acquisition count, and a lock that is held cannot be acquired.
- `uuid.uuid1` is not modelled. The new sid is a parameter.
- IEEE floating point is not modelled. Money and `math_round` are exact reals, so a float artefact near a rounding half is not captured.
- Text parsing and formatting are not modelled: `int()`, `float()`, `strptime`, `strftime` and `.timestamp()`. The parsers are parameters, and a timestamp is kept as a value rather than rendered.
- The configuration object and logging are not modelled. The fee schedule, the simulated-mode flag, the access token and the account list are parameters.
- `wrapper_get_positions`, `wrapper_get_unfinished_entursts` and `wrapper_get_today_trades` are not modelled as handlers. Each is a loop over a scan modelled here: `CsvData.PositionDictOfRow`, `CsvUtils.GetUnfinishedEntrusts` and `CsvUtils.GetExecReportData`.
- `gm_order_status_change.toDict` is not modelled, because its body is `pass`.
- The HTTP server, routes, mock server and start-up script are not part of this model.
- Handlers.TradeOperation: a `price` of `None` becomes the text "None" in the row; the price is taken as already-rendered text.
- HelperFunctions.LoadTradeEvent: it requires a code with exactly one '.'. For any other code the source raises, and the handlers model that raise as a `ValueError` reply.
- Handlers.FilledOrderAsWritten: only the as-written side of the status-poll finding is exhibited, on one concrete order. The handlers use the corrected poll.
- The `invalid` flag of an event is never set by the source, and the model never sets it.

## Findings

| source | as written | input that shows it | evidently intended | confidence | as-written member | corrected member |
|---|---|---|---|---|---|---|
| gmadaptor/gmclient/handlers.py:105-110 | the handler maps side and kind to the terminal's codes (sell 2, market 24), and the writer then compares them with the engine's codes (sell −1, market 2) | any sell or market order, e.g. a market sell | the writer receives the engine's side and kind and maps them once | high, not executed | Handlers.WriterArgsMismatch (via Handlers.WriterArgsAsWritten) | Handlers.WriterArgs, used by Handlers.TradeOperation |
| gmadaptor/gmclient/csv_utils.py:208 | after the scan, both scanners classify the last row read from the file (`report`), not the order's matched row (also line 237) | order "a" filled (status 3, or a trade fill), followed by a row of order "b" that is still open | classify the order's own last row | high, not executed | CsvUtils.ClassifiesWrongRow (via CsvUtils.ExecClassAsWritten, CsvUtils.StatusClassAsWritten) | CsvUtils.ExecReportsBySid, CsvUtils.StatusChangeBySid |
| gmadaptor/gmclient/heper_functions.py:171-175 | the poller reads −1 as "not found" and 0 as "finished", but the scanner answers 0 for not found and 2 for finished | an order already filled at the first read keeps being polled until the budget is gone, so its fills are never read; an order not yet in the file raises KeyError on "report" | stop on a terminal row and skip a read that finds nothing | high, not executed | HelperFunctions.StatusPollMismatch, Handlers.FilledOrderAsWritten (via HelperFunctions.StatusPollAsWritten) | HelperFunctions.PollStatus and HelperFunctions.StatusPollResult, with Handlers.FilledOrderReported |
| gmadaptor/gmclient/csv_utils.py:85 | the writers pass the account id to the inbox getter, which takes `[1]` of its argument as the input folder (wrapper.py:82) | account "12345" registered with the existing input folder "/data/in": the getter looks for folder "2" | pass the account's registry entry, whose `[1]` is its input folder | high, not executed | Wrapper.InboxAsWrittenMisses (via Wrapper.InboxPathAsWritten) | Wrapper.InboxPath, used by CsvUtils.GenerateOrder |
