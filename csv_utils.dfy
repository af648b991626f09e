/** The adaptor's side of the file exchange with the terminal: the writers
    that append orders and cancellations to an account's inbox files, and the
    scanners that read the terminal's outbox files. An outbox file is given as
    its decoded rows in file order, `None` when the file does not exist. */
module CsvUtils {
  import opened Values
  import opened Text
  import opened Wrapper
  import opened CsvData
  import CommonTypes
  import GmCodes

  /** The inbox files written so far: path to lines, without line ends. */
  class Inbox {
    var files: map<string, seq<string>>

    constructor(files: map<string, seq<string>>)
      ensures this.files == files
    {
      this.files := files;
    }
  }

  const OrderColumns: seq<string> := ["sid", "account_id", "symbol", "volume", "order_type",
                                      "order_business(order_biz)", "price", "comment"]
  const CancelColumns: seq<string> := ["sid", "comment"]

  function OrderHeader(): string { Join(OrderColumns, ',') }
  function CancelHeader(): string { Join(CancelColumns, ',') }

  /** The business code the order writer puts in the file for the side it is
      given: sell when the engine's sell code -1 is passed, else buy. */
  function WrittenBiz(side: int): GmCodes.OrderBiz {
    if side == CommonTypes.Side.Sell.Code() then GmCodes.OrderBiz.BizSell else GmCodes.OrderBiz.BizBuy
  }

  /** The order-type code the writer puts in the file: best-five-then-cancel
      when the engine's market code 2 is passed, else limit. */
  function WrittenType(orderType: int): GmCodes.GmOrderType {
    if orderType == CommonTypes.Kind.Market.Code() then GmCodes.GmOrderType.BestCancel else GmCodes.GmOrderType.LimitPrice
  }

  /** The cells of an order row: sid, account, symbol, volume, order type,
      business, price text and an empty comment. */
  function OrderFields(sid: string, accountId: string, symbol: string, volume: int,
                       gmType: GmCodes.GmOrderType, biz: GmCodes.OrderBiz, price: string): seq<string>
  {
    [sid, accountId, symbol, IntToString(volume), IntToString(gmType.Code()),
     IntToString(biz.Code()), price, ""]
  }

  function OrderRow(sid: string, accountId: string, symbol: string, volume: int,
                    gmType: GmCodes.GmOrderType, biz: GmCodes.OrderBiz, price: string): string
  {
    Join(OrderFields(sid, accountId, symbol, volume, gmType, biz, price), ',')
  }

  /** A cancellation row: the sid and the comment "comments", then an empty cell. */
  function CancelRow(sid: string): string {
    Join([sid, "comments", ""], ',')
  }

  function CancelRows(sids: seq<string>): (r: seq<string>)
    ensures |r| == |sids|
  {
    seq(|sids|, k requires 0 <= k < |sids| => CancelRow(sids[k]))
  }

  /** A file after appending `rows`: a new file starts with the header. */
  function Appended(file: Option<seq<string>>, header: string, rows: seq<string>): seq<string> {
    (if file.None? then [header] else file.value) + rows
  }

  function FileAt(files: map<string, seq<string>>, path: string): Option<seq<string>> {
    if path in files then Some(files[path]) else None
  }

  /** The lock of a registered account, as a frame. */
  function LockSet(reg: Registry, id: string): set<object>
    reads reg
  {
    if id in reg.accounts && reg.accounts[id].lock != null then {reg.accounts[id].lock} else {}
  }

  /** The inbox file a writer appends to, when the account is registered, its
      input folder exists and it has a lock. */
  function WriterTarget(reg: Registry, dirs: set<string>, today: DateTime, id: string, suffix: string): Option<string>
    requires today.Valid()
    reads reg
  {
    var info := reg.AccountInfo(id);
    if info.None? || info.value.lock == null then None
    else InboxPath(info.value, dirs, today, suffix)
  }

  /** `csv_generate_order`: nothing is written and no sid returned for an
      unknown account, a missing input folder or a missing lock; otherwise,
      under the account's lock, one order row is appended to the day's order
      inbox (after the header when the file is new), the lock is released
      again and the new sid is returned. */
  method GenerateOrder(reg: Registry, inbox: Inbox, dirs: set<string>, today: DateTime,
                       accountId: string, symbol: string, volume: int, side: int,
                       orderType: int, price: string, newSid: string)
    returns (sid: Option<string>)
    requires today.Valid()
    requires forall l :: l in LockSet(reg, accountId) ==> !(l as AccountLock).held
    modifies inbox, LockSet(reg, accountId)
    ensures var target := WriterTarget(reg, dirs, today, accountId, OrderSuffix);
      (sid.Some? <==> target.Some?)
      && (sid.Some? ==>
            sid.value == newSid
            && inbox.files == old(inbox.files)[target.value := Appended(
               FileAt(old(inbox.files), target.value), OrderHeader(),
               [OrderRow(newSid, accountId, symbol, volume, WrittenType(orderType), WrittenBiz(side), price)])])
      && (sid.None? ==> inbox.files == old(inbox.files))
    ensures forall l :: l in LockSet(reg, accountId) ==>
      !(l as AccountLock).held
      && (l as AccountLock).acquisitions == old((l as AccountLock).acquisitions) + (if sid.Some? then 1 else 0)
  {
    var info := reg.AccountInfo(accountId);
    if info.None? {
      return None;
    }
    var inFile := InboxPath(info.value, dirs, today, OrderSuffix);
    if inFile.None? {
      return None;
    }
    var lock := info.value.lock;
    if lock == null {
      return None;
    }
    lock.Acquire();
    var path := inFile.value;
    var lines := if path in inbox.files then inbox.files[path] else [OrderHeader()];
    var row := OrderRow(newSid, accountId, symbol, volume, WrittenType(orderType), WrittenBiz(side), price);
    inbox.files := inbox.files[path := lines + [row]];
    lock.Release();
    return Some(newSid);
  }

  /** `csv_generate_cancel_order`: as the order writer, but appends one
      cancellation row per sid, in list order, to the day's cancel inbox and
      returns 0. */
  method GenerateCancelOrder(reg: Registry, inbox: Inbox, dirs: set<string>, today: DateTime,
                             accountId: string, sidList: seq<string>)
    returns (r: Option<int>)
    requires today.Valid()
    requires forall l :: l in LockSet(reg, accountId) ==> !(l as AccountLock).held
    modifies inbox, LockSet(reg, accountId)
    ensures var target := WriterTarget(reg, dirs, today, accountId, CancelSuffix);
      (r.Some? <==> target.Some?)
      && (r.Some? ==>
            r.value == 0
            && inbox.files == old(inbox.files)[target.value := Appended(
               FileAt(old(inbox.files), target.value), CancelHeader(), CancelRows(sidList))])
      && (r.None? ==> inbox.files == old(inbox.files))
    ensures forall l :: l in LockSet(reg, accountId) ==>
      !(l as AccountLock).held
      && (l as AccountLock).acquisitions == old((l as AccountLock).acquisitions) + (if r.Some? then 1 else 0)
  {
    var info := reg.AccountInfo(accountId);
    if info.None? {
      return None;
    }
    var inFile := InboxPath(info.value, dirs, today, CancelSuffix);
    if inFile.None? {
      return None;
    }
    var lock := info.value.lock;
    if lock == null {
      return None;
    }
    lock.Acquire();
    var path := inFile.value;
    ghost var before := FileAt(inbox.files, path);
    if path !in inbox.files {
      inbox.files := inbox.files[path := [CancelHeader()]];
      assert [CancelHeader()] + [] == [CancelHeader()];
    } else {
      assert inbox.files[path] + [] == inbox.files[path];
    }
    assert CancelRows(sidList[..0]) == [];
    assert inbox.files == old(inbox.files)[path := Appended(before, CancelHeader(), [])];
    var i := 0;
    while i < |sidList|
      invariant 0 <= i <= |sidList|
      invariant inbox.files == old(inbox.files)[path := Appended(before, CancelHeader(), CancelRows(sidList[..i]))]
      invariant lock.held && lock.acquisitions == old(lock.acquisitions) + 1
    {
      assert CancelRows(sidList[..i + 1]) == CancelRows(sidList[..i]) + [CancelRow(sidList[i])];
      assert inbox.files[path] + [CancelRow(sidList[i])]
             == Appended(before, CancelHeader(), CancelRows(sidList[..i + 1]));
      inbox.files := inbox.files[path := inbox.files[path] + [CancelRow(sidList[i])]];
      i := i + 1;
    }
    assert sidList[..i] == sidList;
    lock.Release();
    return Some(0);
  }

  // Properties of the written rows.

  lemma NoCommaInNumeral(i: int)
    ensures ',' !in IntToString(i)
  {
    var s := NatToString(if i < 0 then -i else i);
    assert forall k :: 0 <= k < |s| ==> s[k] != ',';
    if i < 0 {
      assert IntToString(i) == "-" + s;
      assert forall k :: 0 <= k < |"-" + s| ==> ("-" + s)[k] != ',';
    }
  }

  /** An order row splits back on ',' into its eight cells, provided the
      sid, account, symbol and price text hold no ','. */
  lemma OrderRowCells(sid: string, accountId: string, symbol: string, volume: int,
                      gmType: GmCodes.GmOrderType, biz: GmCodes.OrderBiz, price: string)
    requires ',' !in sid && ',' !in accountId && ',' !in symbol && ',' !in price
    ensures Split(OrderRow(sid, accountId, symbol, volume, gmType, biz, price), ',')
            == OrderFields(sid, accountId, symbol, volume, gmType, biz, price)
  {
    NoCommaInNumeral(volume);
    NoCommaInNumeral(gmType.Code());
    NoCommaInNumeral(biz.Code());
    var f := OrderFields(sid, accountId, symbol, volume, gmType, biz, price);
    assert forall k :: 0 <= k < |f| ==> ',' !in f[k];
    SplitJoin(f, ',');
  }

  lemma HeaderCells()
    ensures Split(OrderHeader(), ',') == OrderColumns
  {
    assert forall k :: 0 <= k < |OrderColumns| ==> ',' !in OrderColumns[k] by {
      forall k | 0 <= k < |OrderColumns| ensures ',' !in OrderColumns[k] {
        var c := OrderColumns[k];
        assert forall j :: 0 <= j < |c| ==> c[j] != ',';
      }
    }
    SplitJoin(OrderColumns, ',');
  }

  /** A file whose first line is the header and which has no other header. */
  predicate HeaderOnce(lines: seq<string>, header: string) {
    |lines| > 0 && lines[0] == header && header !in lines[1..]
  }

  /** Appending rows that are not the header keeps the header once, at the
      top: a new file gets it, an existing one already has it. */
  lemma AppendKeepsHeaderOnce(file: Option<seq<string>>, header: string, rows: seq<string>)
    requires file.Some? ==> HeaderOnce(file.value, header)
    requires header !in rows
    ensures HeaderOnce(Appended(file, header, rows), header)
  {
    var lines := Appended(file, header, rows);
    var first := if file.None? then [header] else file.value;
    assert lines[1..] == first[1..] + rows;
  }

  /** No order row is the header line: the header's last cell is "comment",
      a row's is empty. */
  lemma OrderRowIsNotHeader(sid: string, accountId: string, symbol: string, volume: int,
                            gmType: GmCodes.GmOrderType, biz: GmCodes.OrderBiz, price: string)
    requires ',' !in sid && ',' !in accountId && ',' !in symbol && ',' !in price
    ensures OrderRow(sid, accountId, symbol, volume, gmType, biz, price) != OrderHeader()
  {
    OrderRowCells(sid, accountId, symbol, volume, gmType, biz, price);
    HeaderCells();
  }

  /** So the order inbox, however many orders are written to it, carries the
      header exactly once, as its first line. */
  lemma OrderInboxHeaderOnce(file: Option<seq<string>>, sid: string, accountId: string,
                             symbol: string, volume: int, gmType: GmCodes.GmOrderType,
                             biz: GmCodes.OrderBiz, price: string)
    requires file.Some? ==> HeaderOnce(file.value, OrderHeader())
    requires ',' !in sid && ',' !in accountId && ',' !in symbol && ',' !in price
    ensures HeaderOnce(Appended(file, OrderHeader(), [OrderRow(sid, accountId, symbol, volume, gmType, biz, price)]),
                       OrderHeader())
  {
    OrderRowIsNotHeader(sid, accountId, symbol, volume, gmType, biz, price);
    AppendKeepsHeaderOnce(file, OrderHeader(), [OrderRow(sid, accountId, symbol, volume, gmType, biz, price)]);
  }

  /** Of the cells the writer derives, the business is a sell exactly when
      the engine's sell code is passed, and the type is the market code 24
      exactly when the engine's market code is passed. */
  lemma WrittenCodes(side: int, orderType: int)
    ensures WrittenBiz(side).Code() == 2 <==> side == -1
    ensures WrittenBiz(side).Code() == 1 <==> side != -1
    ensures WrittenType(orderType).Code() == 24 <==> orderType == 2
    ensures WrittenType(orderType).Code() == 1 <==> orderType != 2
  {
  }

  // Scanning the execution-report file.

  /** The rows of the order `sid`, in file order. */
  function MatchingExec(rows: seq<ExecReport>, sid: string): (r: seq<ExecReport>)
    ensures |r| <= |rows|
  {
    if |rows| == 0 then []
    else MatchingExec(rows[..|rows| - 1], sid)
         + (if rows[|rows| - 1].sid == sid then [rows[|rows| - 1]] else [])
  }

  /** Exactly the rows of the order are kept. */
  lemma {:induction false} MatchingExecMembers(rows: seq<ExecReport>, sid: string)
    ensures forall x :: x in MatchingExec(rows, sid) <==> x in rows && x.sid == sid
  {
    if |rows| > 0 {
      MatchingExecMembers(rows[..|rows| - 1], sid);
      assert rows == rows[..|rows| - 1] + [rows[|rows| - 1]];
    }
  }

  /** Selecting an order's rows a second time changes nothing. */
  lemma {:induction false} MatchingExecIdempotent(rows: seq<ExecReport>, sid: string)
    ensures MatchingExec(MatchingExec(rows, sid), sid) == MatchingExec(rows, sid)
  {
    if |rows| > 0 {
      var init := rows[..|rows| - 1];
      var x := rows[|rows| - 1];
      MatchingExecIdempotent(init, sid);
      MatchingExecAppend(MatchingExec(init, sid), if x.sid == sid then [x] else [], sid);
      if x.sid == sid {
        assert [x][..0] == [];
      }
    }
  }

  /** Selection distributes over concatenation. */
  lemma {:induction false} MatchingExecAppend(xs: seq<ExecReport>, ys: seq<ExecReport>, sid: string)
    ensures MatchingExec(xs + ys, sid) == MatchingExec(xs, sid) + MatchingExec(ys, sid)
  {
    if |ys| > 0 {
      var init := ys[..|ys| - 1];
      assert (xs + ys)[..|xs + ys| - 1] == xs + init;
      MatchingExecAppend(xs, init, sid);
    } else {
      assert xs + ys == xs;
    }
  }

  /** The code `TradeExecCode` marks a confirmed trade. */
  function ExecClass(reports: seq<ExecReport>): int {
    if |reports| == 0 then 0
    else if reports[|reports| - 1].execType == GmCodes.TradeExecCode then 2
    else 1
  }

  datatype ExecScan = ExecScan(result: int, reports: seq<ExecReport>)

  /** `csv_get_exec_report_data_by_sid`: the order's rows in file order, with
      0 when there are none, 2 when the last of them is a trade and 1
      otherwise. */
  method ExecReportsBySid(file: Option<seq<ExecReport>>, sid: string) returns (r: Option<ExecScan>)
    ensures r.None? <==> file.None?
    ensures r.Some? ==> r.value.reports == MatchingExec(file.value, sid)
                        && r.value.result == ExecClass(r.value.reports)
  {
    if file.None? {
      return None;
    }
    var rows := file.value;
    var reports: seq<ExecReport> := [];
    var execType := 0;
    var i := 0;
    while i < |rows|
      invariant 0 <= i <= |rows|
      invariant reports == MatchingExec(rows[..i], sid)
      invariant |reports| > 0 ==> execType == reports[|reports| - 1].execType
    {
      assert rows[..i + 1][..i] == rows[..i];
      if sid == rows[i].sid {
        reports := reports + [rows[i]];
        execType := rows[i].execType;
      }
      i := i + 1;
    }
    assert rows[..i] == rows;
    if |reports| == 0 {
      return Some(ExecScan(0, reports));
    }
    var result := if execType == GmCodes.TradeExecCode then 2 else 1;
    return Some(ExecScan(result, reports));
  }

  /** The classification as written: after the loop the kind is read from the
      last row of the file, whichever order it belongs to. */
  function ExecClassAsWritten(rows: seq<ExecReport>, sid: string): int {
    if |MatchingExec(rows, sid)| == 0 then 0
    else if rows[|rows| - 1].execType == GmCodes.TradeExecCode then 2
    else 1
  }

  // Scanning the order-status-change file.

  /** The last row of the order `sid` in file order. */
  function LastMatch(rows: seq<OrderReport>, sid: string): (r: Option<OrderReport>)
    ensures r.Some? ==> r.value in rows && r.value.sid == sid
  {
    if |rows| == 0 then None
    else if rows[|rows| - 1].sid == sid then Some(rows[|rows| - 1])
    else LastMatch(rows[..|rows| - 1], sid)
  }

  /** There is a last row of the order exactly when some row belongs to it,
      and no later row does. */
  lemma {:induction false} LastMatchIsLast(rows: seq<OrderReport>, sid: string)
    ensures LastMatch(rows, sid).None? <==> forall k :: 0 <= k < |rows| ==> rows[k].sid != sid
    ensures LastMatch(rows, sid).Some? ==>
      exists k :: 0 <= k < |rows| && rows[k] == LastMatch(rows, sid).value
                  && forall j :: k < j < |rows| ==> rows[j].sid != sid
  {
    if |rows| > 0 {
      var n := |rows| - 1;
      LastMatchIsLast(rows[..n], sid);
      if rows[n].sid != sid {
        if LastMatch(rows, sid).Some? {
          var k :| 0 <= k < n && rows[..n][k] == LastMatch(rows, sid).value
                   && forall j :: k < j < n ==> rows[..n][j].sid != sid;
          assert rows[k] == LastMatch(rows, sid).value;
        }
      }
    }
  }

  /** The statuses after which an order no longer changes: filled, canceled,
      rejected, suspended, expired. */
  predicate Terminal(status: int) {
    status == 3 || status == 5 || status == 8 || status == 9 || status == 12
  }

  function StatusClass(report: Option<OrderReport>): int {
    if report.None? then 0 else if Terminal(report.value.status) then 2 else 1
  }

  datatype StatusScan = StatusScan(result: int, report: Option<OrderReport>)

  /** `csv_get_order_status_change_data`: the order's last row, with 0 when
      there is none, 2 when its status is terminal and 1 otherwise. */
  method StatusChangeBySid(file: Option<seq<OrderReport>>, sid: string) returns (r: Option<StatusScan>)
    ensures r.None? <==> file.None?
    ensures r.Some? ==> r.value.report == LastMatch(file.value, sid)
                        && r.value.result == StatusClass(r.value.report)
  {
    if file.None? {
      return None;
    }
    var rows := file.value;
    var resultReport: Option<OrderReport> := None;
    var i := 0;
    while i < |rows|
      invariant 0 <= i <= |rows|
      invariant resultReport == LastMatch(rows[..i], sid)
    {
      assert rows[..i + 1][..i] == rows[..i];
      if sid == rows[i].sid {
        resultReport := Some(rows[i]);
      }
      i := i + 1;
    }
    assert rows[..i] == rows;
    if resultReport.None? {
      return Some(StatusScan(0, None));
    }
    var result := if Terminal(resultReport.value.status) then 2 else 1;
    return Some(StatusScan(result, resultReport));
  }

  /** The classification as written: the status read is that of the last row
      of the file. */
  function StatusClassAsWritten(rows: seq<OrderReport>, sid: string): int {
    if LastMatch(rows, sid).None? then 0
    else if Terminal(rows[|rows| - 1].status) then 2
    else 1
  }

  /** Reading the last row of the file instead of the order's own last row
      reports a finished order as still open, and an open order as finished,
      as soon as another order's row follows it. */
  lemma ClassifiesWrongRow(t: DateTime)
    ensures var done := ExecReport("a", "", "", "", 1, "600000.XSHG", 0, "", 10.0, 100, 15, t);
            var other := ExecReport("b", "", "", "", 1, "600000.XSHG", 0, "", 10.0, 100, 1, t);
            ExecClass(MatchingExec([done, other], "a")) == 2
            && ExecClassAsWritten([done, other], "a") == 1
    ensures var open := OrderReport("a", "", "", "600000.XSHG", 1, 1, 1, 0, "", 10.0, 100, 0, t, t);
            var filled := OrderReport("b", "", "", "600000.XSHG", 1, 1, 3, 0, "", 10.0, 100, 100, t, t);
            StatusClass(LastMatch([open, filled], "a")) == 1
            && StatusClassAsWritten([open, filled], "a") == 2
  {
    var open := OrderReport("a", "", "", "600000.XSHG", 1, 1, 1, 0, "", 10.0, 100, 0, t, t);
    var filled := OrderReport("b", "", "", "600000.XSHG", 1, 1, 3, 0, "", 10.0, 100, 100, t, t);
    assert [open, filled][..1] == [open];
    var done := ExecReport("a", "", "", "", 1, "600000.XSHG", 0, "", 10.0, 100, 15, t);
    var other := ExecReport("b", "", "", "", 1, "600000.XSHG", 0, "", 10.0, 100, 1, t);
    assert [done, other][..1] == [done];
    assert [done, other][..1][..0] == [];
  }

  /** The corrected classifications agree with the written ones whenever the
      order's last row is the last row of the file. */
  lemma ClassifiesSameWhenLast(rows: seq<OrderReport>, sid: string)
    requires |rows| > 0 && rows[|rows| - 1].sid == sid
    ensures StatusClass(LastMatch(rows, sid)) == StatusClassAsWritten(rows, sid)
  {
  }

  // The scan over a list of sids used when waiting for cancellations.

  /** The last row of each listed order that has one. */
  function LastPerSid(rows: seq<OrderReport>, sids: seq<string>): (m: map<string, OrderReport>)
    ensures forall s :: s in m ==> m[s].sid == s && m[s] in rows
  {
    map s | s in sids && LastMatch(rows, s).Some? :: LastMatch(rows, s).value
  }

  datatype ListScan = ListScan(result: int, reports: map<string, OrderReport>)

  /** The list scan with the result codes its caller expects: -1 when no
      listed order has a row yet, 0 when every listed order has a row with a
      terminal status, 1 otherwise. */
  function StatusChangeBySidList(rows: seq<OrderReport>, sids: seq<string>): (r: ListScan)
    ensures r.reports == LastPerSid(rows, sids)
    ensures r.result == -1 <==> r.reports == map[]
    ensures r.result == 0 <==>
              r.reports != map[] && forall s :: s in sids ==> s in r.reports && Terminal(r.reports[s].status)
  {
    var m := LastPerSid(rows, sids);
    if m == map[] then ListScan(-1, m)
    else if forall s :: s in sids ==> s in m && Terminal(m[s].status) then ListScan(0, m)
    else ListScan(1, m)
  }

  // Reading today's orders from the order-status file.

  /** The orders created on the day of `today`, in file order. */
  function TodayOrders(rows: seq<OrderReport>, today: DateTime): (r: seq<OrderReport>)
    ensures |r| <= |rows|
  {
    if |rows| == 0 then []
    else TodayOrders(rows[..|rows| - 1], today)
         + (if rows[|rows| - 1].createdAt.SameDay(today) then [rows[|rows| - 1]] else [])
  }

  lemma {:induction false} TodayOrdersMembers(rows: seq<OrderReport>, today: DateTime)
    ensures forall o :: o in TodayOrders(rows, today) <==> o in rows && o.createdAt.SameDay(today)
  {
    if |rows| > 0 {
      TodayOrdersMembers(rows[..|rows| - 1], today);
      assert rows == rows[..|rows| - 1] + [rows[|rows| - 1]];
    }
  }

  function OrderDicts(orders: seq<OrderReport>): (r: seq<map<string, Value>>)
    ensures |r| == |orders|
  {
    seq(|orders|, k requires 0 <= k < |orders| => OrderReportDict(orders[k]))
  }

  /** `csv_get_order_status`: the dictionaries of today's orders, in file
      order. */
  method GetOrderStatus(file: Option<seq<OrderReport>>, today: DateTime)
    returns (r: Option<seq<map<string, Value>>>)
    ensures r.None? <==> file.None?
    ensures r.Some? ==> r.value == OrderDicts(TodayOrders(file.value, today))
  {
    if file.None? {
      return None;
    }
    var rows := file.value;
    var orders: seq<map<string, Value>> := [];
    var i := 0;
    while i < |rows|
      invariant 0 <= i <= |rows|
      invariant orders == OrderDicts(TodayOrders(rows[..i], today))
    {
      assert rows[..i + 1][..i] == rows[..i];
      if rows[i].createdAt.SameDay(today) {
        assert TodayOrders(rows[..i + 1], today) == TodayOrders(rows[..i], today) + [rows[i]];
        orders := orders + [OrderReportDict(rows[i])];
      }
      i := i + 1;
    }
    assert rows[..i] == rows;
    return Some(orders);
  }

  /** The statuses the unfinished filter treats as finished: filled, canceled,
      rejected, expired. Suspended (9) is not among them. */
  predicate Finished(status: int) {
    status == 3 || status == 5 || status == 8 || status == 12
  }

  function UnfinishedOrders(rows: seq<OrderReport>, today: DateTime): (r: seq<OrderReport>)
    ensures |r| <= |rows|
  {
    if |rows| == 0 then []
    else UnfinishedOrders(rows[..|rows| - 1], today)
         + (if rows[|rows| - 1].createdAt.SameDay(today) && !Finished(rows[|rows| - 1].status)
            then [rows[|rows| - 1]] else [])
  }

  /** The unfinished orders are exactly today's orders that are not finished;
      a suspended order is among them although the status scan counts it as
      terminal. */
  lemma {:induction false} UnfinishedOrdersMembers(rows: seq<OrderReport>, today: DateTime)
    ensures forall o :: o in UnfinishedOrders(rows, today) <==>
                        o in rows && o.createdAt.SameDay(today) && !Finished(o.status)
    ensures Terminal(9) && !Finished(9)
  {
    if |rows| > 0 {
      UnfinishedOrdersMembers(rows[..|rows| - 1], today);
      assert rows == rows[..|rows| - 1] + [rows[|rows| - 1]];
    }
  }

  /** `csv_get_unfinished_entrusts_from_order_status` */
  method GetUnfinishedEntrusts(file: Option<seq<OrderReport>>, today: DateTime)
    returns (r: Option<seq<OrderReport>>)
    ensures r.None? <==> file.None?
    ensures r.Some? ==> r.value == UnfinishedOrders(file.value, today)
  {
    if file.None? {
      return None;
    }
    var rows := file.value;
    var orders: seq<OrderReport> := [];
    var i := 0;
    while i < |rows|
      invariant 0 <= i <= |rows|
      invariant orders == UnfinishedOrders(rows[..i], today)
    {
      assert rows[..i + 1][..i] == rows[..i];
      if rows[i].createdAt.SameDay(today) {
        if rows[i].status != 3 && rows[i].status != 5 && rows[i].status != 8 && rows[i].status != 12 {
          orders := orders + [rows[i]];
        }
      }
      i := i + 1;
    }
    assert rows[..i] == rows;
    return Some(orders);
  }

  /** `csv_get_exec_report_data`: the dictionaries of every fill, in file
      order. */
  method GetExecReportData(file: Option<seq<ExecReport>>) returns (r: Option<seq<map<string, Value>>>)
    ensures r.None? <==> file.None?
    ensures r.Some? ==> |r.value| == |file.value|
                        && forall k :: 0 <= k < |file.value| ==> r.value[k] == ExecReportDict(file.value[k])
  {
    if file.None? {
      return None;
    }
    var rows := file.value;
    var reports: seq<map<string, Value>> := [];
    var i := 0;
    while i < |rows|
      invariant 0 <= i <= |rows|
      invariant |reports| == i
      invariant forall k :: 0 <= k < i ==> reports[k] == ExecReportDict(rows[k])
    {
      reports := reports + [ExecReportDict(rows[i])];
      i := i + 1;
    }
    return Some(reports);
  }
}
