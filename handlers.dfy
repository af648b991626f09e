/** The decision flow of the handlers behind the HTTP routes: placing an
    order, cancelling orders, listing today's orders and reading the balance.
    Each returns a status code with a message and optional data, or raises. */
module Handlers {
  import opened Values
  import opened StockNames
  import opened Wrapper
  import opened CsvData
  import opened CsvUtils
  import opened CommonTypes
  import opened HelperFunctions
  import GmCodes

  function Success(e: EventState): Reply {
    Reply(200, "success", Some(Dict(EventDict(e))))
  }

  const NoResult: Reply := Reply(500, "failed to get result of this entrust", None)

  // The side and type passed to the order writer.

  /** As written, the handler maps the engine's side and kind to the
      terminal's codes before calling the writer, which maps them again. */
  function WriterArgsAsWritten(side: Side, kind: Kind): (int, int) {
    (SetGmOrderSide(side).Code(), SetGmOrderType(kind).Code())
  }

  /** Corrected: the engine's own codes are passed and the writer maps them
      once. */
  function WriterArgs(side: Side, kind: Kind): (int, int) {
    (side.Code(), kind.Code())
  }

  /** The double mapping writes every order as a limit buy, whatever its side
      and kind; passing the engine's codes writes the intended side and type. */
  lemma WriterArgsMismatch(side: Side, kind: Kind)
    ensures WrittenBiz(WriterArgsAsWritten(side, kind).0) == GmCodes.OrderBiz.BizBuy
    ensures WrittenType(WriterArgsAsWritten(side, kind).1) == GmCodes.GmOrderType.LimitPrice
    ensures WrittenBiz(WriterArgs(side, kind).0) == SetGmOrderSide(side)
    ensures WrittenType(WriterArgs(side, kind).1) == SetGmOrderType(kind)
  {
  }

  // Placing an order.

  /** What the polls that follow a successful write find. */
  datatype TradeOutcome = NoReport | BadReport | Found(e: EventState)

  /** Once the order's status row is known: the loaded event, with its fills
      read only when the terminal status is partially filled (2) or filled
      (3), and then with the budget the status poll left; `NoReport` when the
      fills are needed and the execution-report file is missing. */
  function FillsOf(report: OrderReport, sid: string, execSnaps: Option<seq<seq<ExecReport>>>,
                   remaining: int, fees: FeeSchedule, fake: bool): TradeOutcome
    requires WellFormed(report.symbol)
  {
    var e := LoadedState(report);
    if report.status != 2 && report.status != 3 then Found(e)
    else if execSnaps.None? then NoReport
    else Found(ExecPoll(execSnaps.value, 0, sid, e, fees, fake, remaining, []).state)
  }

  /** The outcome of the polls for the order `sid`: `NoReport` when the
      status-change file is missing or the poll finds no row of the order,
      `BadReport` when the row's code is not of the form "a.b" (the event
      loader raises). */
  function TradeOutcomeOf(sid: string, statusSnaps: Option<seq<seq<OrderReport>>>,
                          execSnaps: Option<seq<seq<ExecReport>>>, timeout: int,
                          fees: FeeSchedule, fake: bool): TradeOutcome
  {
    if statusSnaps.None? then NoReport
    else
      var p := StatusPoll(statusSnaps.value, 0, sid, timeout, []);
      if |p.reports| == 0 then NoReport
      else if !WellFormed(p.reports[|p.reports| - 1].symbol) then BadReport
      else FillsOf(p.reports[|p.reports| - 1], sid, execSnaps, p.remaining, fees, fake)
  }

  function TradeReply(o: TradeOutcome): Reply {
    match o
    case NoReport => NoResult
    case BadReport => Raised("ValueError")
    case Found(e) => Success(e)
  }

  /** The part of `wrapper_trade_operation` after the write: poll the status
      of the new order, then, for a fill status, its fills. */
  method AwaitTrade(sid: string, statusSnaps: Option<seq<seq<OrderReport>>>,
                    execSnaps: Option<seq<seq<ExecReport>>>, timeout: int,
                    fees: FeeSchedule, fake: bool)
    returns (reply: Reply)
    ensures reply == TradeReply(TradeOutcomeOf(sid, statusSnaps, execSnaps, timeout, fees, fake))
  {
    var report := PollStatus(statusSnaps, sid, timeout);
    if report.None? || |report.value.reports| == 0 {
      return NoResult;
    }
    var timeoutInAction := report.value.remaining;
    var last := report.value.reports[|report.value.reports| - 1];
    if !WellFormed(last.symbol) {
      return Raised("ValueError");
    }
    var event := LoadTradeEvent(last);
    var status := last.status;
    if status != 2 && status != 3 {
      return Success(event.State());
    }
    var execReports := PollExec(execSnaps, sid, event, fees, fake, timeoutInAction);
    if execReports.None? {
      return NoResult;
    }
    return Success(event.State());
  }

  /** `wrapper_trade_operation`: a code that is not of the form "a.b" raises
      before anything is written; a failed write answers 401 without polling;
      otherwise one order row with the mapped side and type is appended and
      the reply is that of the polls. */
  method TradeOperation(reg: Registry, inbox: Inbox, dirs: set<string>, today: DateTime,
                        accountId: string, security: string, volume: int, price: string,
                        side: Side, kind: Kind, timeout: int, newSid: string,
                        statusSnaps: Option<seq<seq<OrderReport>>>,
                        execSnaps: Option<seq<seq<ExecReport>>>,
                        fees: FeeSchedule, fake: bool)
    returns (reply: Reply)
    requires today.Valid()
    requires forall l :: l in LockSet(reg, accountId) ==> !(l as AccountLock).held
    modifies inbox, LockSet(reg, accountId)
    ensures !WellFormed(security) ==> reply == Raised("ValueError") && inbox.files == old(inbox.files)
    ensures WellFormed(security) ==>
      var target := WriterTarget(reg, dirs, today, accountId, OrderSuffix);
      (target.None? ==>
         reply == Reply(401, "failed to append data to input file", None)
         && inbox.files == old(inbox.files))
      && (target.Some? ==>
         reply == TradeReply(TradeOutcomeOf(newSid, statusSnaps, execSnaps, timeout, fees, fake))
         && inbox.files == old(inbox.files)[target.value := Appended(
              FileAt(old(inbox.files), target.value), OrderHeader(),
              [OrderRow(newSid, accountId, Myquant(security), volume,
                        SetGmOrderType(kind), SetGmOrderSide(side), price)])])
    ensures forall l :: l in LockSet(reg, accountId) ==> !(l as AccountLock).held
  {
    if !WellFormed(security) {
      return Raised("ValueError");
    }
    var myquantCode := Myquant(security);
    var (gmOrderSide, gmOrderType) := WriterArgs(side, kind);
    WriterArgsMismatch(side, kind);
    var sid := GenerateOrder(reg, inbox, dirs, today, accountId, myquantCode, volume,
                             gmOrderSide, gmOrderType, price, newSid);
    if sid.None? {
      return Reply(401, "failed to append data to input file", None);
    }
    reply := AwaitTrade(sid.value, statusSnaps, execSnaps, timeout, fees, fake);
  }

  /** `r` is the event `e` with fills that stay within a non-negative volume
      and agree with the average price. */
  predicate FillsBounded(r: EventState, e: EventState) {
    r.entrustNo == e.entrustNo && r.status == e.status && r.volume == e.volume
    && (e.volume >= 0 ==> r.filled <= r.volume)
    && AverageHolds(r)
  }

  lemma JudgeBounded(e: EventState, reports: seq<ExecReport>, fees: FeeSchedule, fake: bool)
    requires e.status == PartialTx || e.status == AllTx
    ensures FillsBounded(Judge(e, reports, fees, fake).state, e)
  {
    JudgeProperties(e, reports, fees, fake);
  }

  /** The fills poll keeps an order with a fill status identified by its sid
      and in its status, never fills it beyond a non-negative volume, and
      leaves an average price that gives back the filled amount. */
  lemma ExecPollBounded(snaps: seq<seq<ExecReport>>, sid: string, e: EventState,
                        fees: FeeSchedule, fake: bool, t: int)
    requires e.filled == 0
    requires e.status == PartialTx || e.status == AllTx
    ensures FillsBounded(ExecPoll(snaps, 0, sid, e, fees, fake, t, []).state, e)
  {
    if t > 0 {
      ExecPollFinal(snaps, 0, sid, e, fees, fake, t, []);
      var p := ExecPoll(snaps, 0, sid, e, fees, fake, t, []);
      if |p.reports| > 0 {
        JudgeBounded(ResetState(e), p.reports, fees, fake);
      }
    }
  }

  /** An event returned for an order is the order's own: identified by its
      sid, never filled beyond a non-negative volume, filled only under a fill
      status, and with an average price that gives back the filled amount. */
  lemma TradeOutcomeBounded(sid: string, statusSnaps: Option<seq<seq<OrderReport>>>,
                            execSnaps: Option<seq<seq<ExecReport>>>, timeout: int,
                            fees: FeeSchedule, fake: bool)
    ensures var o := TradeOutcomeOf(sid, statusSnaps, execSnaps, timeout, fees, fake);
      o.Found? ==>
        o.e.entrustNo == sid
        && (o.e.volume >= 0 ==> o.e.filled <= o.e.volume)
        && (o.e.filled != 0 ==> o.e.status == PartialTx || o.e.status == AllTx)
        && AverageHolds(o.e)
  {
    if statusSnaps.Some? {
      StatusPollResult(statusSnaps.value, 0, sid, timeout, []);
      var p := StatusPoll(statusSnaps.value, 0, sid, timeout, []);
      if |p.reports| > 0 && WellFormed(p.reports[|p.reports| - 1].symbol) {
        FillsOfBounded(p.reports[|p.reports| - 1], sid, execSnaps, p.remaining, fees, fake);
      }
    }
  }

  lemma FillsOfBounded(report: OrderReport, sid: string, execSnaps: Option<seq<seq<ExecReport>>>,
                       remaining: int, fees: FeeSchedule, fake: bool)
    requires WellFormed(report.symbol) && report.sid == sid
    ensures var o := FillsOf(report, sid, execSnaps, remaining, fees, fake);
      o.Found? ==>
        o.e.entrustNo == sid
        && (o.e.volume >= 0 ==> o.e.filled <= o.e.volume)
        && (o.e.filled != 0 ==> o.e.status == PartialTx || o.e.status == AllTx)
        && AverageHolds(o.e)
  {
    if (report.status == 2 || report.status == 3) && execSnaps.Some? {
      ExecPollBounded(execSnaps.value, sid, LoadedState(report), fees, fake, remaining);
    }
  }

  /** An order already filled at the first status read, whose fills are all
      in the first read of the execution-report file, is returned filled in
      full: the status poll stops at once and leaves the whole budget for the
      fills. */
  lemma FilledOrderReported(sid: string, o: OrderReport, statusSnaps: seq<seq<OrderReport>>,
                            execSnaps: seq<seq<ExecReport>>, timeout: int, fees: FeeSchedule, fake: bool)
    requires |statusSnaps| > 0 && LastMatch(statusSnaps[0], sid) == Some(o)
    requires o.status == 3 && WellFormed(o.symbol) && timeout > 0
    requires |execSnaps| > 0 && |MatchingExec(execSnaps[0], sid)| > 0
    requires SumVolume(MatchingExec(execSnaps[0], sid)) == o.volume
    ensures var r := TradeOutcomeOf(sid, Some(statusSnaps), Some(execSnaps), timeout, fees, fake);
      r.Found? && r.e.status == AllTx && r.e.filled == o.volume
  {
    StatusPollFirstTerminal(statusSnaps, sid, timeout, o);
    var e := LoadedState(o);
    assert e.status == AllTx;
    var m := MatchingExec(execSnaps[0], sid);
    MatchingExecIdempotent(execSnaps[0], sid);
    JudgeComplete(ResetState(e), m, fees, fake);
    ExecPollFirstDone(execSnaps, sid, e, fees, fake, timeout);
  }

  /** With the status poll as written, an order already filled at the first
      read is returned with nothing filled: the poll spends the whole budget,
      so the fills are never read. The intended poll returns it filled in
      full (`FilledOrderReported`). It sits here, not beside the poll, because
      it is about what the trade handler returns. */
  lemma FilledOrderAsWritten(t: DateTime, fees: FeeSchedule, fake: bool)
    ensures var o := OrderReport("a", "", "", "600000.XSHG", 1, 1, 3, 0, "", 10.0, 100, 100, t, t);
      var fills := [[ExecReport("a", "", "", "", 1, "600000.XSHG", 0, "", 10.0, 100, 15, t)]];
      StatusPollAsWritten([[o]], 0, "a", 1000, []) == Some(StatusPolled([o], 0))
      && ExecPoll(fills, 0, "a", LoadedState(o), fees, fake, 0, []).state.filled == 0
  {
    StatusPollMismatch(t);
    assert "600000.XSHG" == Dotted("600000", "XSHG");
  }

  // Replies that carry events.

  /** The reply data of the cancel and today's-orders handlers: the
      dictionary of each event under its key. The model keeps the events in
      the loops and builds their dictionaries here. */
  function EventsValue(m: map<string, EventState>): Value {
    Dict(map s | s in m :: Dict(EventDict(m[s])))
  }

  /** The reply data holds one entry per event, and each entry reads back as
      its event. */
  lemma EventsValueRoundTrip(m: map<string, EventState>)
    ensures EventsValue(m).d.Keys == m.Keys
    ensures forall s {:trigger m[s]} :: s in m ==> EventOfDict(EventsValue(m).d[s].d) == Some(m[s].(invalid := false))
  {
    forall s | s in m
      ensures EventOfDict(EventsValue(m).d[s].d) == Some(m[s].(invalid := false))
    {
      EventsValueEntry(m, s);
    }
  }

  lemma EventsValueEntry(m: map<string, EventState>, s: string)
    requires s in m
    ensures EventOfDict(EventsValue(m).d[s].d) == Some(m[s].(invalid := false))
  {
    var e := m[s];
    assert EventsValue(m).d[s] == Dict(EventDict(e));
    EventDictRoundTrip(e);
  }

  // Cancelling orders.

  /** The event reported for one cancelled order: loaded from its status row
      and completed from the execution reports. */
  function CancelEvent(report: OrderReport, execs: seq<ExecReport>, fees: FeeSchedule, fake: bool): EventState
    requires WellFormed(report.symbol)
  {
    Judge(LoadedState(report), execs, fees, fake).state
  }

  predicate AllWellFormed(reports: map<string, OrderReport>) {
    forall s :: s in reports ==> WellFormed(reports[s].symbol)
  }

  function CancelEvents(reports: map<string, OrderReport>, execs: seq<ExecReport>,
                        fees: FeeSchedule, fake: bool): map<string, EventState>
    requires AllWellFormed(reports)
  {
    map s | s in reports :: CancelEvent(reports[s], execs, fees, fake)
  }

  /** One pass of the loop of `wrapper_cancel_entursts`: the event and the
      key it is stored under, its `entrust_no`. */
  method CancelEntry(report: OrderReport, execs: seq<ExecReport>, fees: FeeSchedule, fake: bool)
    returns (key: string, e: EventState)
    requires WellFormed(report.symbol)
    ensures key == report.sid && e == CancelEvent(report, execs, fees, fake)
  {
    var event := LoadTradeEvent(report);
    var _ := SumExecReports(execs, event, fees, fake);
    return event.entrustNo, event.State();
  }

  /** The loop of `wrapper_cancel_entursts` over the rows found: one event
      per row, under its sid; it raises on a row whose code cannot be
      converted. */
  method CollectCancelEvents(reports: map<string, OrderReport>, execs: seq<ExecReport>,
                             fees: FeeSchedule, fake: bool)
    returns (r: Option<map<string, EventState>>)
    requires forall s :: s in reports ==> reports[s].sid == s
    ensures r.None? <==> !AllWellFormed(reports)
    ensures r.Some? ==> AllWellFormed(reports) && r.value == CancelEvents(reports, execs, fees, fake)
  {
    var resultEvents: map<string, EventState> := map[];
    var keys := reports.Keys;
    ghost var done: seq<string> := [];
    while keys != {}
      invariant keys <= reports.Keys
      invariant forall i :: 0 <= i < |done| ==> done[i] in reports && done[i] !in keys
      invariant forall s :: s in reports && s !in keys ==> s in done
      invariant CancelFold(reports, done, execs, fees, fake) == Some(resultEvents)
      decreases |keys|
    {
      var s :| s in keys;
      var report := reports[s];
      if !WellFormed(report.symbol) {
        return None;
      }
      var key, event := CancelEntry(report, execs, fees, fake);
      CancelFoldStep(reports, done, s, execs, fees, fake);
      resultEvents := resultEvents[key := event];
      done := done + [s];
      keys := keys - {s};
    }
    CancelFoldAll(reports, done, execs, fees, fake);
    return Some(resultEvents);
  }

  /** The events of the rows under the sids `ks`, stored in that order;
      `None` when one of them cannot be converted. */
  function CancelFold(reports: map<string, OrderReport>, ks: seq<string>, execs: seq<ExecReport>,
                      fees: FeeSchedule, fake: bool): Option<map<string, EventState>>
  {
    if |ks| == 0 then Some(map[])
    else
      var rest := CancelFold(reports, ks[..|ks| - 1], execs, fees, fake);
      var s := ks[|ks| - 1];
      if rest.None? || s !in reports || !WellFormed(reports[s].symbol) then None
      else Some(rest.value[s := CancelEvent(reports[s], execs, fees, fake)])
  }

  lemma CancelFoldStep(reports: map<string, OrderReport>, ks: seq<string>, s: string,
                       execs: seq<ExecReport>, fees: FeeSchedule, fake: bool)
    requires CancelFold(reports, ks, execs, fees, fake).Some?
    requires s in reports && WellFormed(reports[s].symbol)
    ensures CancelFold(reports, ks + [s], execs, fees, fake)
            == Some(CancelFold(reports, ks, execs, fees, fake).value[s := CancelEvent(reports[s], execs, fees, fake)])
  {
    assert (ks + [s])[..|ks|] == ks;
  }

  /** Every stored event is the one for its row. */
  predicate CancelEntries(reports: map<string, OrderReport>, execs: seq<ExecReport>,
                          fees: FeeSchedule, fake: bool, m: map<string, EventState>)
  {
    forall s :: s in m ==>
      s in reports && WellFormed(reports[s].symbol) && m[s] == CancelEvent(reports[s], execs, fees, fake)
  }

  lemma CancelEntriesStep(reports: map<string, OrderReport>, execs: seq<ExecReport>,
                          fees: FeeSchedule, fake: bool, m: map<string, EventState>, s: string)
    requires CancelEntries(reports, execs, fees, fake, m)
    requires s in reports && WellFormed(reports[s].symbol)
    ensures CancelEntries(reports, execs, fees, fake, m[s := CancelEvent(reports[s], execs, fees, fake)])
  {
  }

  /** A fold that succeeds holds the event of every row it went through, and
      nothing else. */
  lemma {:induction false} CancelFoldEntries(reports: map<string, OrderReport>, ks: seq<string>,
                                             execs: seq<ExecReport>, fees: FeeSchedule, fake: bool)
    requires CancelFold(reports, ks, execs, fees, fake).Some?
    ensures CancelEntries(reports, execs, fees, fake, CancelFold(reports, ks, execs, fees, fake).value)
  {
    if |ks| > 0 {
      var init := ks[..|ks| - 1];
      CancelFoldEntries(reports, init, execs, fees, fake);
      CancelEntriesStep(reports, execs, fees, fake, CancelFold(reports, init, execs, fees, fake).value, ks[|ks| - 1]);
    }
  }

  /** A fold that succeeds stores exactly the sids it went through. */
  lemma {:induction false} CancelFoldKeys(reports: map<string, OrderReport>, ks: seq<string>,
                                          execs: seq<ExecReport>, fees: FeeSchedule, fake: bool)
    requires CancelFold(reports, ks, execs, fees, fake).Some?
    ensures forall s :: s in CancelFold(reports, ks, execs, fees, fake).value <==> s in ks
  {
    if |ks| > 0 {
      var init := ks[..|ks| - 1];
      CancelFoldKeys(reports, init, execs, fees, fake);
      assert ks == init + [ks[|ks| - 1]];
    }
  }

  /** A fold through every row gives the events `CancelEvents` describes. */
  lemma CancelFoldAll(reports: map<string, OrderReport>, ks: seq<string>,
                      execs: seq<ExecReport>, fees: FeeSchedule, fake: bool)
    requires CancelFold(reports, ks, execs, fees, fake).Some?
    requires forall s :: s in reports ==> s in ks
    ensures AllWellFormed(reports)
    ensures CancelFold(reports, ks, execs, fees, fake).value == CancelEvents(reports, execs, fees, fake)
  {
    CancelFoldKeys(reports, ks, execs, fees, fake);
    CancelFoldEntries(reports, ks, execs, fees, fake);
  }

  /** The reply after the cancellations are written. A missing status-change
      file leaves the poll's result `None`, whose `values()` raises. */
  function CancelReply(sids: seq<string>, statusSnaps: Option<seq<seq<OrderReport>>>,
                       execFile: Option<seq<ExecReport>>, fees: FeeSchedule, fake: bool): Reply
  {
    if statusSnaps.None? then Raised("AttributeError")
    else
      var reports := CancelPoll(statusSnaps.value, 0, sids, CancelBudget, map[]);
      var execs := if execFile.None? then [] else execFile.value;
      if !AllWellFormed(reports) then Raised("ValueError")
      else Reply(200, "OK", Some(EventsValue(CancelEvents(reports, execs, fees, fake))))
  }

  /** `wrapper_cancel_entursts`: 401 for a missing list before anything is
      written, 401 when the write fails, otherwise one cancellation row per
      sid is appended and the reply is that of the poll. */
  method CancelEntrusts(reg: Registry, inbox: Inbox, dirs: set<string>, today: DateTime,
                        accountId: string, sidList: Option<seq<string>>,
                        statusSnaps: Option<seq<seq<OrderReport>>>,
                        execFile: Option<seq<ExecReport>>, fees: FeeSchedule, fake: bool)
    returns (reply: Reply)
    requires today.Valid()
    requires forall l :: l in LockSet(reg, accountId) ==> !(l as AccountLock).held
    modifies inbox, LockSet(reg, accountId)
    ensures sidList.None? ==> reply == Reply(401, "only entrust list accepted", None) && inbox.files == old(inbox.files)
    ensures sidList.Some? ==>
      var target := WriterTarget(reg, dirs, today, accountId, CancelSuffix);
      (target.None? ==>
         reply == Reply(401, "failed to append data to input file, check lock or file", None)
         && inbox.files == old(inbox.files))
      && (target.Some? ==>
         reply == CancelReply(sidList.value, statusSnaps, execFile, fees, fake)
         && inbox.files == old(inbox.files)[target.value := Appended(
              FileAt(old(inbox.files), target.value), CancelHeader(), CancelRows(sidList.value))])
    ensures forall l :: l in LockSet(reg, accountId) ==> !(l as AccountLock).held
  {
    if sidList.None? {
      return Reply(401, "only entrust list accepted", None);
    }
    var result := GenerateCancelOrder(reg, inbox, dirs, today, accountId, sidList.value);
    if result != Some(0) {
      return Reply(401, "failed to append data to input file, check lock or file", None);
    }
    reply := AwaitCancel(sidList.value, statusSnaps, execFile, fees, fake);
  }

  /** The part of `wrapper_cancel_entursts` after the write. */
  method AwaitCancel(sids: seq<string>, statusSnaps: Option<seq<seq<OrderReport>>>,
                     execFile: Option<seq<ExecReport>>, fees: FeeSchedule, fake: bool)
    returns (reply: Reply)
    ensures reply == CancelReply(sids, statusSnaps, execFile, fees, fake)
  {
    var reports := PollCancel(statusSnaps, sids);
    if reports.None? {
      return Raised("AttributeError");
    }
    var allExecReports := if execFile.None? then [] else execFile.value;
    CancelPollResult(statusSnaps.value, 0, sids, CancelBudget, map[]);
    var events := CollectCancelEvents(reports.value, allExecReports, fees, fake);
    if events.None? {
      return Raised("ValueError");
    }
    return Reply(200, "OK", Some(EventsValue(events.value)));
  }

  /** A cancelled order's event keeps the order's sid and the engine status
      of its row. */
  lemma CancelEventKeeps(report: OrderReport, execs: seq<ExecReport>, fees: FeeSchedule, fake: bool)
    requires WellFormed(report.symbol)
    ensures var e := CancelEvent(report, execs, fees, fake);
      e.entrustNo == report.sid && e.status == StatusConvert(report.status)
  {
    JudgeProperties(LoadedState(report), execs, fees, fake);
  }

  /** A cancel reply lists exactly the listed orders that have a status row,
      each under its sid and with the engine status of that row. */
  lemma CancelReplyEntries(sids: seq<string>, statusSnaps: seq<seq<OrderReport>>,
                           execFile: Option<seq<ExecReport>>, fees: FeeSchedule, fake: bool)
    ensures var reports := CancelPoll(statusSnaps, 0, sids, CancelBudget, map[]);
      var execs := if execFile.None? then [] else execFile.value;
      CancelReply(sids, Some(statusSnaps), execFile, fees, fake).Reply? ==>
        AllWellFormed(reports)
        && CancelReply(sids, Some(statusSnaps), execFile, fees, fake).data == Some(EventsValue(CancelEvents(reports, execs, fees, fake)))
        && (forall s :: s in reports ==> s in sids)
        && forall s :: s in reports ==>
             CancelEvents(reports, execs, fees, fake)[s].entrustNo == s
             && CancelEvents(reports, execs, fees, fake)[s].status == StatusConvert(reports[s].status)
  {
    CancelPollResult(statusSnaps, 0, sids, CancelBudget, map[]);
    var reports := CancelPoll(statusSnaps, 0, sids, CancelBudget, map[]);
    var execs := if execFile.None? then [] else execFile.value;
    if AllWellFormed(reports) {
      forall s | s in reports
        ensures CancelEvent(reports[s], execs, fees, fake).entrustNo == s
        ensures CancelEvent(reports[s], execs, fees, fake).status == StatusConvert(reports[s].status)
      {
        CancelEventKeeps(reports[s], execs, fees, fake);
      }
    }
  }

  // Today's orders.

  /** The event reported for one of today's orders: without fills when its
      engine status is error or submitted; otherwise completed from the
      execution reports, and for a fully-traded order whose fills do not add
      up to its volume, with filled, average price and fees zeroed. */
  function EntrustEvent(o: OrderReport, execs: seq<ExecReport>, fees: FeeSchedule, fake: bool): EventState
    requires WellFormed(o.symbol)
  {
    var e := LoadedState(o);
    if e.status == Error || e.status == Submitted then e
    else
      var j := Judge(e, execs, fees, fake).state;
      if j.status == AllTx && j.volume != j.filled then j.(filled := 0, avgPrice := 0.0, tradeFees := 0.0)
      else j
  }

  /** The zeroing in the handler changes nothing: the aggregation has
      already cleared an incomplete fully-traded order, its filled amount
      included. So a fully-traded order is reported either filled in full or
      with no totals at all. */
  lemma EntrustZeroingRedundant(o: OrderReport, execs: seq<ExecReport>, fees: FeeSchedule, fake: bool)
    requires WellFormed(o.symbol)
    ensures var e := LoadedState(o);
      e.status != Error && e.status != Submitted ==> EntrustEvent(o, execs, fees, fake) == Judge(e, execs, fees, fake).state
    ensures var r := EntrustEvent(o, execs, fees, fake);
      r.status == AllTx ==>
        r.filled == r.volume
        || (r.filled == 0 && r.avgPrice == 0.0 && r.tradeFees == 0.0 && r.filledAmount == 0.0)
  {
    JudgeProperties(LoadedState(o), execs, fees, fake);
  }

  /** One pass of the loop of `wrapper_get_today_all_entrusts`: the event and
      the key it is stored under, its `entrust_no`. */
  method EntrustEntry(o: OrderReport, execs: seq<ExecReport>, fees: FeeSchedule, fake: bool)
    returns (key: string, e: EventState)
    requires WellFormed(o.symbol)
    ensures key == o.sid && e == EntrustEvent(o, execs, fees, fake)
  {
    var event := LoadTradeEvent(o);
    var eventStatus := event.status;
    if eventStatus == Error || eventStatus == Submitted {
      return event.entrustNo, event.State();
    }
    var _ := SumExecReports(execs, event, fees, fake);
    ghost var j := Judge(LoadedState(o), execs, fees, fake).state;
    assert event.State() == j;
    if event.status == AllTx && event.volume != event.filled {
      event.filled := 0;
      event.avgPrice := 0.0;
      event.tradeFees := 0.0;
      assert event.State() == j.(filled := 0, avgPrice := 0.0, tradeFees := 0.0);
    }
    return event.entrustNo, event.State();
  }

  predicate OrdersWellFormed(orders: seq<OrderReport>) {
    forall k :: 0 <= k < |orders| ==> WellFormed(orders[k].symbol)
  }

  /** The entries `vals[k]` stored in order under the keys `keys[k]`, a later
      key replacing an earlier one. */
  function Keyed<V>(keys: seq<string>, vals: seq<V>): map<string, V>
    requires |keys| == |vals|
  {
    if |keys| == 0 then map[]
    else Keyed(keys[..|keys| - 1], vals[..|vals| - 1])[keys[|keys| - 1] := vals[|vals| - 1]]
  }

  /** Exactly the listed keys are stored. */
  lemma {:induction false} KeyedKeys<V>(keys: seq<string>, vals: seq<V>)
    requires |keys| == |vals|
    ensures forall s :: s in Keyed(keys, vals) <==> s in keys
  {
    if |keys| > 0 {
      var n := |keys| - 1;
      KeyedKeys(keys[..n], vals[..n]);
      assert keys == keys[..n] + [keys[n]];
    }
  }

  /** A key keeps the entry of its last occurrence. */
  lemma {:induction false} KeyedLast<V>(keys: seq<string>, vals: seq<V>, k: int)
    requires |keys| == |vals| && 0 <= k < |keys|
    requires forall j :: k < j < |keys| ==> keys[j] != keys[k]
    ensures keys[k] in Keyed(keys, vals) && Keyed(keys, vals)[keys[k]] == vals[k]
  {
    var n := |keys| - 1;
    if k < n {
      KeyedLast(keys[..n], vals[..n], k);
    }
  }

  function SidsOf(orders: seq<OrderReport>): (r: seq<string>)
    ensures |r| == |orders|
  {
    seq(|orders|, k requires 0 <= k < |orders| => orders[k].sid)
  }

  function EntrustEvents(orders: seq<OrderReport>, execs: seq<ExecReport>, fees: FeeSchedule, fake: bool): (r: seq<EventState>)
    requires OrdersWellFormed(orders)
    ensures |r| == |orders|
  {
    seq(|orders|, k requires 0 <= k < |orders| && OrdersWellFormed(orders) => EntrustEvent(orders[k], execs, fees, fake))
  }

  /** The result of the loop over today's orders: each order's event under
      its sid, a later row of the same sid replacing an earlier one. */
  function TodayEvents(orders: seq<OrderReport>, execs: seq<ExecReport>, fees: FeeSchedule, fake: bool): map<string, EventState>
    requires OrdersWellFormed(orders)
  {
    Keyed(SidsOf(orders), EntrustEvents(orders, execs, fees, fake))
  }

  /** Every order of the day, and nothing else, is reported under its sid. */
  lemma TodayEventsKeys(orders: seq<OrderReport>, execs: seq<ExecReport>, fees: FeeSchedule, fake: bool)
    requires OrdersWellFormed(orders)
    ensures forall k :: 0 <= k < |orders| ==> orders[k].sid in TodayEvents(orders, execs, fees, fake)
    ensures forall s :: s in TodayEvents(orders, execs, fees, fake) ==>
              exists k :: 0 <= k < |orders| && orders[k].sid == s
  {
    var sids := SidsOf(orders);
    KeyedKeys(sids, EntrustEvents(orders, execs, fees, fake));
    assert forall k :: 0 <= k < |orders| ==> sids[k] == orders[k].sid;
  }

  /** The event under a sid is that of its last order of the day. */
  lemma TodayEventsLast(orders: seq<OrderReport>, execs: seq<ExecReport>,
                        fees: FeeSchedule, fake: bool, k: int)
    requires OrdersWellFormed(orders)
    requires 0 <= k < |orders|
    requires forall j :: k < j < |orders| ==> orders[j].sid != orders[k].sid
    ensures orders[k].sid in TodayEvents(orders, execs, fees, fake)
    ensures TodayEvents(orders, execs, fees, fake)[orders[k].sid] == EntrustEvent(orders[k], execs, fees, fake)
  {
    var sids := SidsOf(orders);
    assert forall j :: 0 <= j < |orders| ==> sids[j] == orders[j].sid;
    KeyedLast(sids, EntrustEvents(orders, execs, fees, fake), k);
  }

  /** `events[k]` is the event of `orders[k]`, stored under `keys[k]`. */
  predicate TodayEntries(orders: seq<OrderReport>, keys: seq<string>, events: seq<EventState>,
                         execs: seq<ExecReport>, fees: FeeSchedule, fake: bool)
  {
    |keys| == |orders| && |events| == |orders|
    && (forall k :: 0 <= k < |orders| ==> keys[k] == orders[k].sid && WellFormed(orders[k].symbol))
    && forall k {:trigger events[k]} :: 0 <= k < |orders| ==>
         WellFormed(orders[k].symbol) && events[k] == EntrustEvent(orders[k], execs, fees, fake)
  }

  lemma TodayEntriesStep(orders: seq<OrderReport>, i: int, keys: seq<string>, events: seq<EventState>,
                         key: string, event: EventState, execs: seq<ExecReport>, fees: FeeSchedule, fake: bool)
    requires 0 <= i < |orders| && TodayEntries(orders[..i], keys, events, execs, fees, fake)
    requires WellFormed(orders[i].symbol)
    requires key == orders[i].sid && event == EntrustEvent(orders[i], execs, fees, fake)
    ensures TodayEntries(orders[..i + 1], keys + [key], events + [event], execs, fees, fake)
    ensures Keyed(keys + [key], events + [event]) == Keyed(keys, events)[key := event]
  {
    assert (keys + [key])[..i] == keys && (events + [event])[..i] == events;
  }

  /** The loop of `wrapper_get_today_all_entrusts` over today's orders: it
      raises on a row whose code cannot be converted. */
  method CollectTodayEvents(orders: seq<OrderReport>, execs: seq<ExecReport>, fees: FeeSchedule, fake: bool)
    returns (r: Option<map<string, EventState>>)
    ensures r.None? <==> !OrdersWellFormed(orders)
    ensures r.Some? ==> OrdersWellFormed(orders) && r.value == TodayEvents(orders, execs, fees, fake)
  {
    var resultEvents: map<string, EventState> := map[];
    ghost var keys: seq<string> := [];
    ghost var events: seq<EventState> := [];
    var i := 0;
    while i < |orders|
      invariant 0 <= i <= |orders|
      invariant TodayEntries(orders[..i], keys, events, execs, fees, fake)
      invariant resultEvents == Keyed(keys, events)
    {
      var entrust := orders[i];
      if !WellFormed(entrust.symbol) {
        return None;
      }
      var key, event := EntrustEntry(entrust, execs, fees, fake);
      TodayEntriesStep(orders, i, keys, events, key, event, execs, fees, fake);
      resultEvents := resultEvents[key := event];
      keys := keys + [key];
      events := events + [event];
      i := i + 1;
    }
    assert orders[..i] == orders;
    TodayEventsOfEntries(orders, execs, fees, fake, keys, events);
    return Some(resultEvents);
  }

  lemma TodayEventsOfEntries(orders: seq<OrderReport>, execs: seq<ExecReport>, fees: FeeSchedule, fake: bool,
                             keys: seq<string>, events: seq<EventState>)
    requires TodayEntries(orders, keys, events, execs, fees, fake)
    ensures OrdersWellFormed(orders) && Keyed(keys, events) == TodayEvents(orders, execs, fees, fake)
  {
    assert keys == SidsOf(orders);
    assert events == EntrustEvents(orders, execs, fees, fake);
  }

  /** `wrapper_get_today_all_entrusts`: 500 when the order-status file is
      missing, otherwise the events of today's orders. */
  method GetTodayAllEntrusts(orderFile: Option<seq<OrderReport>>, execFile: Option<seq<ExecReport>>,
                             today: DateTime, fees: FeeSchedule, fake: bool)
    returns (reply: Reply)
    ensures orderFile.None? ==> reply == Reply(500, "order status file not found of this account", None)
    ensures orderFile.Some? ==>
      var orders := TodayOrders(orderFile.value, today);
      var execs := if execFile.None? then [] else execFile.value;
      (!OrdersWellFormed(orders) ==> reply == Raised("ValueError"))
      && (OrdersWellFormed(orders) ==> reply == Reply(200, "success", Some(EventsValue(TodayEvents(orders, execs, fees, fake)))))
  {
    if orderFile.None? {
      return Reply(500, "order status file not found of this account", None);
    }
    var allEntrusts := TodayOrders(orderFile.value, today);
    var allExecReports := if execFile.None? then [] else execFile.value;
    var resultEvents := CollectTodayEvents(allEntrusts, allExecReports, fees, fake);
    if resultEvents.None? {
      return Raised("ValueError");
    }
    return Reply(200, "success", Some(EventsValue(resultEvents.value)));
  }

  // The balance.

  /** The reply built from the rows of the cash file: 401 when it has none,
      otherwise from its last row; a row that does not decode raises what
      `gm_cash` raises for it, and a zero net value raises in `toDict`. */
  function BalanceReply(rows: seq<Row>, P: Parsers): Reply {
    if |rows| == 0 then Reply(401, "no data in cash file", None)
    else
      var cash := DecodeCash(rows[|rows| - 1], P);
      if cash.None? then Raised(CashError(rows[|rows| - 1], P).value)
      else
        var d := CashDict(cash.value);
        if d.None? then Raised("ZeroDivisionError") else Reply(200, "success", Some(Dict(d.value)))
  }

  /** `wrapper_get_balance`: 401 for an unregistered account; the cash file
      of a registered one is opened without checking that it exists. */
  method GetBalance(reg: Registry, accountId: string, cashFile: Option<seq<Row>>, P: Parsers)
    returns (reply: Reply)
    ensures reg.CashCsv(accountId).None? ==> reply == Reply(401, "no output file found", None)
    ensures reg.CashCsv(accountId).Some? && cashFile.None? ==> reply == Raised("FileNotFoundError")
    ensures reg.CashCsv(accountId).Some? && cashFile.Some? ==>
      (|cashFile.value| == 0 ==> reply == Reply(401, "no data in cash file", None))
      && (|cashFile.value| > 0 ==> reply == BalanceReply([cashFile.value[|cashFile.value| - 1]], P))
  {
    var outDir := reg.CashCsv(accountId);
    if outDir.None? {
      return Reply(401, "no output file found", None);
    }
    if cashFile.None? {
      return Raised("FileNotFoundError");
    }
    var rows := cashFile.value;
    var cashInCsv: Option<Row> := None;
    var i := 0;
    while i < |rows|
      invariant 0 <= i <= |rows|
      invariant cashInCsv == (if i == 0 then None else Some(rows[i - 1]))
    {
      cashInCsv := Some(rows[i]);
      i := i + 1;
    }
    if cashInCsv.None? {
      return Reply(401, "no data in cash file", None);
    }
    var acctCash := DecodeCash(cashInCsv.value, P);
    if acctCash.None? {
      return Raised(CashError(cashInCsv.value, P).value);
    }
    var d := CashDict(acctCash.value);
    if d.None? {
      return Raised("ZeroDivisionError");
    }
    return Reply(200, "success", Some(Dict(d.value)));
  }

  /** A successful balance reports the net value of the last row as the total
      and a profit ratio that gives back its profit; a last row that does not
      decode raises KeyError or ValueError, as `gm_cash` does; earlier rows do
      not matter. */
  lemma BalanceOfLastRow(rows: seq<Row>, P: Parsers)
    requires |rows| > 0
    ensures BalanceReply(rows, P) == BalanceReply([rows[|rows| - 1]], P)
    ensures var reply := BalanceReply(rows, P);
      reply.Reply? && reply.status == 200 ==>
        var c := DecodeCash(rows[|rows| - 1], P).value;
        reply.data == Some(Dict(CashDict(c).value))
        && reply.data.value.d["total"] == Real(c.nav) && reply.data.value.d["ppnl"].r * c.nav == c.pnl
    ensures DecodeCash(rows[|rows| - 1], P).None? ==>
      CashError(rows[|rows| - 1], P).Some?
      && BalanceReply(rows, P) == Raised(CashError(rows[|rows| - 1], P).value)
      && (CashError(rows[|rows| - 1], P).value == "KeyError" || CashError(rows[|rows| - 1], P).value == "ValueError")
  {
    var reply := BalanceReply(rows, P);
    if reply.Reply? && reply.status == 200 {
      CashDictRatio(DecodeCash(rows[|rows| - 1], P).value);
    }
  }
}
