/** The records of the terminal's outbox files, decoded from one CSV row
    (column name to cell text), and the dictionaries the handlers return for
    them. Python's `int()`, `float()` and `strptime` are given as parameters;
    `None` from them, or a missing column, stands for the exception the
    decoding raises. */
module CsvData {
  import opened Values
  import opened Text
  import opened StockNames

  type Row = map<string, string>

  /** The cell parsers: `int(text)`, `float(text)` and `strptime(text, format)`. */
  datatype Parsers = Parsers(
    toInt: string -> Option<int>,
    toReal: string -> Option<real>,
    parseTime: (string, string) -> Option<DateTime>)

  const FracFormat: string := "%Y-%m-%dT%H:%M:%S.%f+08:00"
  const WholeFormat: string := "%Y-%m-%dT%H:%M:%S+08:00"

  predicate EndsWith(s: string, suffix: string) {
    |suffix| <= |s| && s[|s| - |suffix|..] == suffix
  }

  /** The format `datetime_conversion` picks for a timestamp text. */
  function TimeFormat(s: string): string {
    if Contains(s, ".") then FracFormat else WholeFormat
  }

  /** The fractional-second format is chosen exactly when the text has a '.',
      and either format demands the literal +08:00 offset. */
  lemma TimeFormatChoice(s: string)
    ensures '.' in TimeFormat(s) <==> '.' in s
    ensures EndsWith(TimeFormat(s), "+08:00")
  {
    ContainsChar(s, '.');
    assert FracFormat[17] == '.';
    assert forall i :: 0 <= i < |WholeFormat| ==> WholeFormat[i] != '.';
  }

  /** `datetime_conversion` */
  function DatetimeConversion(s: string, P: Parsers): Option<DateTime> {
    P.parseTime(s, TimeFormat(s))
  }

  /** `dict_data[key]`: a missing column raises KeyError. */
  function Cell(row: Row, key: string): (r: Option<string>)
    ensures r.Some? <==> key in row
    ensures r.Some? ==> r.value == row[key]
  {
    if key in row then Some(row[key]) else None
  }

  function IntCell(row: Row, key: string, P: Parsers): Option<int> {
    var c :- Cell(row, key);
    P.toInt(c)
  }

  function RealCell(row: Row, key: string, P: Parsers): Option<real> {
    var c :- Cell(row, key);
    P.toReal(c)
  }

  function TimeCell(row: Row, key: string, P: Parsers): Option<DateTime> {
    var c :- Cell(row, key);
    DatetimeConversion(c, P)
  }

  /** The symbol column converted to the engine's form; a code without exactly
      one '.' raises in the conversion. */
  function SymbolCell(row: Row): (r: Option<string>)
    ensures r.Some? ==> "symbol" in row && WellFormed(row["symbol"])
                        && r.value == Joinquant(row["symbol"]) && WellFormed(r.value)
  {
    var s :- Cell(row, "symbol");
    if WellFormed(s) then Some(Joinquant(s)) else None
  }

  // gm_cash

  datatype Cash = Cash(accountId: string, marketVal: real, nav: real, pnl: real,
                       fpnl: real, frozen: real, available: real, balance: real)

  /** `c` is what the row's literal columns say. */
  predicate CashOfRow(row: Row, P: Parsers, c: Cash) {
    Cell(row, "account_id") == Some(c.accountId)
    && RealCell(row, "market_value(market_val)", P) == Some(c.marketVal)
    && RealCell(row, "nav", P) == Some(c.nav)
    && RealCell(row, "pnl", P) == Some(c.pnl)
    && RealCell(row, "fpnl", P) == Some(c.fpnl)
    && RealCell(row, "frozen", P) == Some(c.frozen)
    && RealCell(row, "available", P) == Some(c.available)
    && RealCell(row, "balance", P) == Some(c.balance)
  }

  /** `gm_cash(row)`: decodes exactly the records the columns describe. */
  function DecodeCash(row: Row, P: Parsers): (r: Option<Cash>)
    ensures forall c :: CashOfRow(row, P, c) <==> r == Some(c)
  {
    var accountId :- Cell(row, "account_id");
    var marketVal :- RealCell(row, "market_value(market_val)", P);
    var nav :- RealCell(row, "nav", P);
    var pnl :- RealCell(row, "pnl", P);
    var fpnl :- RealCell(row, "fpnl", P);
    var frozen :- RealCell(row, "frozen", P);
    var available :- RealCell(row, "available", P);
    var balance :- RealCell(row, "balance", P);
    Some(Cash(accountId, marketVal, nav, pnl, fpnl, frozen, available, balance))
  }

  /** The columns `gm_cash` reads, in the order it reads them; every one but
      the account id goes through `float`. */
  const CashColumns: seq<string> :=
    ["account_id", "market_value(market_val)", "nav", "pnl", "fpnl", "frozen", "available", "balance"]

  /** The exception reading one cash column raises, if any. */
  function CashColumnError(row: Row, key: string, P: Parsers): (r: Option<string>)
    ensures r == Some("KeyError") <==> key !in row
    ensures r == Some("ValueError") <==> key in row && key != "account_id" && RealCell(row, key, P).None?
    ensures r.None? <==> Cell(row, key).Some? && (key != "account_id" ==> RealCell(row, key, P).Some?)
  {
    if key !in row then Some("KeyError")
    else if key != "account_id" && P.toReal(row[key]).None? then Some("ValueError")
    else None
  }

  /** The exception raised by the first of `keys` that fails, if any. */
  function FirstCashError(row: Row, keys: seq<string>, P: Parsers): (r: Option<string>)
    ensures r.None? <==> forall i :: 0 <= i < |keys| ==> CashColumnError(row, keys[i], P).None?
    ensures r.Some? ==> exists i :: 0 <= i < |keys| && r == CashColumnError(row, keys[i], P)
                          && forall j :: 0 <= j < i ==> CashColumnError(row, keys[j], P).None?
    decreases |keys|
  {
    if |keys| == 0 then None
    else if CashColumnError(row, keys[0], P).Some? then CashColumnError(row, keys[0], P)
    else
      var r := FirstCashError(row, keys[1..], P);
      assert forall i :: 0 < i < |keys| ==> keys[i] == keys[1..][i - 1];
      r
  }

  /** The exception `gm_cash(row)` raises: none exactly when the row decodes;
      otherwise that of the first column it reads that is missing (KeyError)
      or not a number (ValueError). */
  function CashError(row: Row, P: Parsers): (r: Option<string>)
    ensures r.None? <==> DecodeCash(row, P).Some?
    ensures r.Some? ==> exists i :: 0 <= i < |CashColumns| && r == CashColumnError(row, CashColumns[i], P)
                          && forall j :: 0 <= j < i ==> CashColumnError(row, CashColumns[j], P).None?
  {
    CashColumnsOk(row, P);
    CashDecodes(row, P);
    FirstCashError(row, CashColumns, P)
  }

  /** Every cash column reads without error, spelled out column by column. */
  predicate CashColumnsRead(row: Row, P: Parsers) {
    Cell(row, "account_id").Some?
    && RealCell(row, "market_value(market_val)", P).Some? && RealCell(row, "nav", P).Some?
    && RealCell(row, "pnl", P).Some? && RealCell(row, "fpnl", P).Some?
    && RealCell(row, "frozen", P).Some? && RealCell(row, "available", P).Some?
    && RealCell(row, "balance", P).Some?
  }

  lemma CashColumnsOk(row: Row, P: Parsers)
    ensures (forall i :: 0 <= i < |CashColumns| ==> CashColumnError(row, CashColumns[i], P).None?)
            <==> CashColumnsRead(row, P)
  {
    if CashColumnsRead(row, P) {
      forall i | 0 <= i < |CashColumns|
        ensures CashColumnError(row, CashColumns[i], P).None?
      {
        assert CashColumns[i] in {"account_id", "market_value(market_val)", "nav", "pnl", "fpnl", "frozen", "available", "balance"};
      }
    } else {
      assert CashColumns[0] == "account_id" && CashColumns[1] == "market_value(market_val)";
      assert CashColumns[2] == "nav" && CashColumns[3] == "pnl" && CashColumns[4] == "fpnl";
      assert CashColumns[5] == "frozen" && CashColumns[6] == "available" && CashColumns[7] == "balance";
    }
  }

  lemma CashDecodes(row: Row, P: Parsers)
    ensures DecodeCash(row, P).Some? <==> CashColumnsRead(row, P)
  {
  }

  /** A cash row without a "nav" column raises KeyError, and one whose "nav"
      is not a number raises ValueError, once the columns read before it are
      fine. */
  lemma CashErrorOfNav(row: Row, P: Parsers)
    requires "account_id" in row && RealCell(row, "market_value(market_val)", P).Some?
    ensures "nav" !in row ==> CashError(row, P) == Some("KeyError")
    ensures "nav" in row && P.toReal(row["nav"]).None? ==> CashError(row, P) == Some("ValueError")
  {
    assert CashColumns[1..][1..] == ["nav", "pnl", "fpnl", "frozen", "available", "balance"];
  }

  /** `gm_cash.toDict`; `None` stands for the division by a zero net value. */
  function CashDict(c: Cash): Option<map<string, Value>> {
    if c.nav == 0.0 then None
    else Some(map["account" := Str(c.accountId), "available" := Real(c.available),
                  "pnl" := Real(c.pnl), "total" := Real(c.nav),
                  "ppnl" := Real(c.pnl / c.nav)])
  }

  /** The cash dictionary exists exactly when the net value is not zero; it
      reports the net value as the total and a profit ratio that gives back
      the profit. */
  lemma CashDictRatio(c: Cash)
    ensures CashDict(c).None? <==> c.nav == 0.0
    ensures CashDict(c).Some? ==> CashDict(c).value["total"] == Real(c.nav)
                                  && CashDict(c).value["ppnl"].r * c.nav == c.pnl
  {
  }

  // gm_position

  datatype Position = Position(accountId: string, symbol: string, side: int, volume: int,
                               volToday: int, vwap: real, marketVal: real, cost: real,
                               avlNow: int)

  /** `p` is what the row's literal columns say. */
  predicate PositionOfRow(row: Row, P: Parsers, p: Position) {
    Cell(row, "account_id") == Some(p.accountId)
    && SymbolCell(row) == Some(p.symbol)
    && IntCell(row, "side", P) == Some(p.side)
    && IntCell(row, "volume", P) == Some(p.volume)
    && IntCell(row, "volume_today(vol_today)", P) == Some(p.volToday)
    && RealCell(row, "vwap", P) == Some(p.vwap)
    && RealCell(row, "market_value(market_val)", P) == Some(p.marketVal)
    && RealCell(row, "cost", P) == Some(p.cost)
    && IntCell(row, "available_now(avl_now)", P) == Some(p.avlNow)
  }

  /** `gm_position(row)`: decodes exactly the records the columns describe. */
  function DecodePosition(row: Row, P: Parsers): (r: Option<Position>)
    ensures forall p :: PositionOfRow(row, P, p) <==> r == Some(p)
  {
    var accountId :- Cell(row, "account_id");
    var symbol :- SymbolCell(row);
    var side :- IntCell(row, "side", P);
    var volume :- IntCell(row, "volume", P);
    var volToday :- IntCell(row, "volume_today(vol_today)", P);
    var vwap :- RealCell(row, "vwap", P);
    var marketVal :- RealCell(row, "market_value(market_val)", P);
    var cost :- RealCell(row, "cost", P);
    var avlNow :- IntCell(row, "available_now(avl_now)", P);
    Some(Position(accountId, symbol, side, volume, volToday, vwap, marketVal, cost, avlNow))
  }

  /** `gm_position.toDict` */
  function PositionDict(p: Position): map<string, Value> {
    map["account" := Str(p.accountId), "code" := Str(p.symbol), "shares" := Int(p.volume),
        "sellable" := Int(p.avlNow), "price" := Real(p.vwap), "market_value" := Real(p.marketVal)]
  }

  /** A position row is reported with its total volume as shares, the volume
      closable now as sellable and the average cost as price. */
  lemma PositionDictOfRow(row: Row, P: Parsers)
    requires DecodePosition(row, P).Some?
    ensures var d := PositionDict(DecodePosition(row, P).value);
      IntCell(row, "volume", P) == Some(d["shares"].i)
      && IntCell(row, "available_now(avl_now)", P) == Some(d["sellable"].i)
      && RealCell(row, "vwap", P) == Some(d["price"].r)
      && SymbolCell(row) == Some(d["code"].s)
  {
  }

  // gm_order_status

  datatype OrderReport = OrderReport(
    sid: string, clOrdId: string, orderId: string, symbol: string,
    orderType: int, orderBusiness: int, status: int, rejReason: int,
    rejDetail: string, price: real, volume: int, filledVol: int,
    recvAt: DateTime, createdAt: DateTime)

  /** `o` is what the row's literal columns say. */
  predicate OrderReportOfRow(row: Row, P: Parsers, o: OrderReport) {
    Cell(row, "sid") == Some(o.sid)
    && Cell(row, "cl_ord_id") == Some(o.clOrdId)
    && Cell(row, "order_id") == Some(o.orderId)
    && SymbolCell(row) == Some(o.symbol)
    && IntCell(row, "order_type", P) == Some(o.orderType)
    && IntCell(row, "order_business(order_biz)", P) == Some(o.orderBusiness)
    && IntCell(row, "status", P) == Some(o.status)
    && IntCell(row, "ord_rej_reason(rej_reason)", P) == Some(o.rejReason)
    && Cell(row, "ord_rej_reason_detail(rej_detail)") == Some(o.rejDetail)
    && RealCell(row, "price", P) == Some(o.price)
    && IntCell(row, "volume", P) == Some(o.volume)
    && IntCell(row, "filled_volume(filled_vol)", P) == Some(o.filledVol)
    && TimeCell(row, "recv_at", P) == Some(o.recvAt)
    && TimeCell(row, "created_at", P) == Some(o.createdAt)
  }

  /** `gm_order_status(row)`: decodes exactly the records the columns describe. */
  function DecodeOrderReport(row: Row, P: Parsers): (r: Option<OrderReport>)
    ensures forall o :: OrderReportOfRow(row, P, o) <==> r == Some(o)
  {
    var sid :- Cell(row, "sid");
    var clOrdId :- Cell(row, "cl_ord_id");
    var orderId :- Cell(row, "order_id");
    var symbol :- SymbolCell(row);
    var orderType :- IntCell(row, "order_type", P);
    var orderBusiness :- IntCell(row, "order_business(order_biz)", P);
    var status :- IntCell(row, "status", P);
    var rejReason :- IntCell(row, "ord_rej_reason(rej_reason)", P);
    var rejDetail :- Cell(row, "ord_rej_reason_detail(rej_detail)");
    var price :- RealCell(row, "price", P);
    var volume :- IntCell(row, "volume", P);
    var filledVol :- IntCell(row, "filled_volume(filled_vol)", P);
    var recvAt :- TimeCell(row, "recv_at", P);
    var createdAt :- TimeCell(row, "created_at", P);
    Some(OrderReport(sid, clOrdId, orderId, symbol, orderType, orderBusiness, status,
                     rejReason, rejDetail, price, volume, filledVol, recvAt, createdAt))
  }

  /** `gm_order_status.toDict` */
  function OrderReportDict(o: OrderReport): map<string, Value> {
    map["request_id" := Str("xxxx"), "sid" := Str(o.sid), "cid" := Str(o.clOrdId),
        "code" := Str(o.symbol), "name" := Str(""), "price" := Real(o.price),
        "volume" := Int(o.volume), "filled" := Int(o.filledVol),
        "side" := Int(o.orderBusiness), "date" := Time(o.recvAt),
        "status" := Int(o.status), "reason" := Int(o.rejReason)]
  }

  /** An order row is reported with the client order id as cid, the filled
      volume as filled, the raw business, status and reject codes, and the
      constant request id "xxxx". */
  lemma OrderReportDictOfRow(row: Row, P: Parsers)
    requires DecodeOrderReport(row, P).Some?
    ensures var d := OrderReportDict(DecodeOrderReport(row, P).value);
      Cell(row, "cl_ord_id") == Some(d["cid"].s)
      && IntCell(row, "filled_volume(filled_vol)", P) == Some(d["filled"].i)
      && IntCell(row, "order_business(order_biz)", P) == Some(d["side"].i)
      && IntCell(row, "status", P) == Some(d["status"].i)
      && IntCell(row, "ord_rej_reason(rej_reason)", P) == Some(d["reason"].i)
      && d["request_id"] == Str("xxxx")
  {
    var o := DecodeOrderReport(row, P).value;
    assert OrderReportOfRow(row, P, o);
    OrderReportDictFields(o);
  }

  lemma OrderReportDictFields(o: OrderReport)
    ensures var d := OrderReportDict(o);
      d["cid"] == Str(o.clOrdId) && d["filled"] == Int(o.filledVol)
      && d["side"] == Int(o.orderBusiness) && d["status"] == Int(o.status)
      && d["reason"] == Int(o.rejReason) && d["request_id"] == Str("xxxx")
  {
  }

  // gm_exec_report

  datatype ExecReport = ExecReport(
    sid: string, scanName: string, clOrdId: string, orderId: string,
    orderBusiness: int, symbol: string, rejReason: int, rejDetail: string,
    price: real, volume: int, execType: int, recvAt: DateTime)

  predicate ExecReportOfRow(row: Row, P: Parsers, x: ExecReport) {
    Cell(row, "sid") == Some(x.sid)
    && Cell(row, "scan_name") == Some(x.scanName)
    && Cell(row, "cl_ord_id") == Some(x.clOrdId)
    && Cell(row, "order_id") == Some(x.orderId)
    && IntCell(row, "order_business(order_biz)", P) == Some(x.orderBusiness)
    && SymbolCell(row) == Some(x.symbol)
    && IntCell(row, "ord_rej_reason(rej_reason)", P) == Some(x.rejReason)
    && Cell(row, "ord_rej_reason_detail(rej_detail)") == Some(x.rejDetail)
    && RealCell(row, "price", P) == Some(x.price)
    && IntCell(row, "volume", P) == Some(x.volume)
    && IntCell(row, "exec_type", P) == Some(x.execType)
    && TimeCell(row, "recv_at", P) == Some(x.recvAt)
  }

  /** `gm_exec_report(row)` */
  function DecodeExecReport(row: Row, P: Parsers): (r: Option<ExecReport>)
    ensures forall x :: ExecReportOfRow(row, P, x) <==> r == Some(x)
  {
    var sid :- Cell(row, "sid");
    var scanName :- Cell(row, "scan_name");
    var clOrdId :- Cell(row, "cl_ord_id");
    var orderId :- Cell(row, "order_id");
    var orderBusiness :- IntCell(row, "order_business(order_biz)", P);
    var symbol :- SymbolCell(row);
    var rejReason :- IntCell(row, "ord_rej_reason(rej_reason)", P);
    var rejDetail :- Cell(row, "ord_rej_reason_detail(rej_detail)");
    var price :- RealCell(row, "price", P);
    var volume :- IntCell(row, "volume", P);
    var execType :- IntCell(row, "exec_type", P);
    var recvAt :- TimeCell(row, "recv_at", P);
    Some(ExecReport(sid, scanName, clOrdId, orderId, orderBusiness, symbol, rejReason,
                    rejDetail, price, volume, execType, recvAt))
  }

  /** `gm_exec_report.toDict` */
  function ExecReportDict(x: ExecReport): map<string, Value> {
    map["cid" := Str(x.clOrdId), "code" := Str(x.symbol), "name" := Str(""),
        "price" := Real(x.price), "volume" := Int(x.volume), "side" := Int(x.orderBusiness),
        "date" := Time(x.recvAt), "status" := Int(x.execType), "reason" := Int(x.rejReason)]
  }

  /** A fill is reported with its execution kind under "status" and its own
      price and volume. */
  lemma ExecReportDictOfRow(row: Row, P: Parsers)
    requires DecodeExecReport(row, P).Some?
    ensures var d := ExecReportDict(DecodeExecReport(row, P).value);
      IntCell(row, "exec_type", P) == Some(d["status"].i)
      && RealCell(row, "price", P) == Some(d["price"].r)
      && IntCell(row, "volume", P) == Some(d["volume"].i)
      && Cell(row, "cl_ord_id") == Some(d["cid"].s)
  {
    var x := DecodeExecReport(row, P).value;
    assert ExecReportOfRow(row, P, x);
    ExecReportDictFields(x);
  }

  lemma ExecReportDictFields(x: ExecReport)
    ensures var d := ExecReportDict(x);
      d["status"] == Int(x.execType) && d["price"] == Real(x.price)
      && d["volume"] == Int(x.volume) && d["cid"] == Str(x.clOrdId)
  {
  }

  // gm_order_status_change

  datatype StatusChange = StatusChange(
    sid: string, clOrdId: string, orderId: string, symbol: string, status: int,
    orderBiz: int, rejReason: int, rejDetail: string, price: real, volume: int,
    filledVol: int, recvAt: DateTime)

  /** `c` is what the row's literal columns say. */
  predicate StatusChangeOfRow(row: Row, P: Parsers, c: StatusChange) {
    Cell(row, "sid") == Some(c.sid)
    && Cell(row, "cl_ord_id") == Some(c.clOrdId)
    && Cell(row, "order_id") == Some(c.orderId)
    && SymbolCell(row) == Some(c.symbol)
    && IntCell(row, "status", P) == Some(c.status)
    && IntCell(row, "order_business(order_biz)", P) == Some(c.orderBiz)
    && IntCell(row, "ord_rej_reason(rej_reason)", P) == Some(c.rejReason)
    && Cell(row, "ord_rej_reason_detail(rej_detail)") == Some(c.rejDetail)
    && RealCell(row, "price", P) == Some(c.price)
    && IntCell(row, "volume", P) == Some(c.volume)
    && IntCell(row, "filled_volume(filled_vol)", P) == Some(c.filledVol)
    && TimeCell(row, "recv_at", P) == Some(c.recvAt)
  }

  /** `gm_order_status_change(row)`: decodes exactly the records the columns
      describe. */
  function DecodeStatusChange(row: Row, P: Parsers): (r: Option<StatusChange>)
    ensures forall c :: StatusChangeOfRow(row, P, c) <==> r == Some(c)
  {
    var sid :- Cell(row, "sid");
    var clOrdId :- Cell(row, "cl_ord_id");
    var orderId :- Cell(row, "order_id");
    var symbol :- SymbolCell(row);
    var status :- IntCell(row, "status", P);
    var orderBiz :- IntCell(row, "order_business(order_biz)", P);
    var rejReason :- IntCell(row, "ord_rej_reason(rej_reason)", P);
    var rejDetail :- Cell(row, "ord_rej_reason_detail(rej_detail)");
    var price :- RealCell(row, "price", P);
    var volume :- IntCell(row, "volume", P);
    var filledVol :- IntCell(row, "filled_volume(filled_vol)", P);
    var recvAt :- TimeCell(row, "recv_at", P);
    Some(StatusChange(sid, clOrdId, orderId, symbol, status, orderBiz, rejReason,
                      rejDetail, price, volume, filledVol, recvAt))
  }

  /** The status-change file has the order-status file's columns. Any row the
      order-status decoder accepts, the status-change decoder accepts too, and
      the two agree on every field they share; this is why the model reads the
      status-change file with the order-status decoder, which also keeps the
      order type and creation time a trade event needs. */
  lemma StatusChangeAgrees(row: Row, P: Parsers)
    requires DecodeOrderReport(row, P).Some?
    ensures var o := DecodeOrderReport(row, P).value;
      DecodeStatusChange(row, P) == Some(StatusChange(
        o.sid, o.clOrdId, o.orderId, o.symbol, o.status, o.orderBusiness, o.rejReason,
        o.rejDetail, o.price, o.volume, o.filledVol, o.recvAt))
  {
    var o := DecodeOrderReport(row, P).value;
    assert OrderReportOfRow(row, P, o);
  }
}
