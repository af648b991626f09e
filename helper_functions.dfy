/** The helpers behind the order handlers: fee calculation, loading a trade
    event from an order record, aggregating the fills of an order into the
    event with a verdict on whether the data is complete, and the polling
    loops that re-read the terminal's files until a budget of milliseconds is
    spent. Each poll reads the file as it is at that moment; the successive
    contents are given as a sequence of snapshots, and sleeping between reads
    is not modelled. */
module HelperFunctions {
  import opened Values
  import opened Utils
  import opened StockNames
  import opened CsvData
  import opened CsvUtils
  import opened CommonTypes
  import GmCodes
  import Text

  // Fees.

  /** The fee configuration: rates in units of 1/10000 of the traded amount,
      and the minimum commission charged per fill. */
  datatype FeeSchedule = FeeSchedule(commission: real, stampDuty: real, transferFee: real, minimumCost: real)
  {
    predicate NonNegative() {
      commission >= 0.0 && stampDuty >= 0.0 && transferFee >= 0.0 && minimumCost >= 0.0
    }
  }

  /** The terminal's business code of a sell. */
  const SellBiz: int := 2

  /** A rate applied to an amount, rounded to cents. */
  function Charge(amount: real, rate: real): real {
    Round2(amount * rate / 10000.0)
  }

  /** `helper_calculate_trade_fees`: in simulated mode one commission, which
      for a sell includes the stamp duty, and at least the minimum; in live
      mode the commission (at least the minimum) plus the transfer fee plus,
      for a sell, the stamp duty, rounded to cents. */
  function TradeFees(amount: real, fees: FeeSchedule, orderSide: int, fake: bool): real {
    var commission := Charge(amount, fees.commission);
    if fake then
      var c := if orderSide == SellBiz then Charge(amount, fees.commission + fees.stampDuty) else commission;
      if c < fees.minimumCost then fees.minimumCost else c
    else
      var stamp := if orderSide == SellBiz then Charge(amount, fees.stampDuty) else 0.0;
      var transfer := Charge(amount, fees.transferFee);
      var c := if commission < fees.minimumCost then fees.minimumCost else commission;
      Round2(c + transfer + stamp)
  }

  lemma ChargeNonNegative(amount: real, rate: real)
    requires amount >= 0.0 && rate >= 0.0
    ensures Charge(amount, rate) >= 0.0
  {
    assert amount * rate >= 0.0;
    RoundMonotone(0.0, amount * rate / 10000.0, 2);
  }

  lemma ChargeMonotone(a: real, b: real, r: real, s: real)
    requires 0.0 <= a <= b && 0.0 <= r <= s
    ensures Charge(a, r) <= Charge(b, s)
  {
    MulMonotone(a, b, r, s);
    var x, y := a * r, b * s;
    assert x / 10000.0 <= y / 10000.0;
    RoundMonotone(x / 10000.0, y / 10000.0, 2);
  }

  lemma MulMonotone(a: real, b: real, r: real, s: real)
    requires 0.0 <= a <= b && 0.0 <= r <= s
    ensures a * r <= b * s
  {
    assert a * r <= b * r by {
      assert (b - a) * r >= 0.0;
    }
    assert b * r <= b * s by {
      assert b * (s - r) >= 0.0;
    }
  }

  /** Every fill costs at least the minimum commission (in live mode, the
      minimum rounded to cents), and a live fee is a whole number of cents. */
  lemma FeeAtLeastMinimum(amount: real, fees: FeeSchedule, orderSide: int, fake: bool)
    requires amount >= 0.0 && fees.NonNegative()
    ensures fake ==> TradeFees(amount, fees, orderSide, fake) >= fees.minimumCost
    ensures !fake ==> TradeFees(amount, fees, orderSide, fake) >= Round2(fees.minimumCost)
    ensures !fake ==> Round2(TradeFees(amount, fees, orderSide, fake)) == TradeFees(amount, fees, orderSide, fake)
  {
    if !fake {
      var commission := Charge(amount, fees.commission);
      var stamp := if orderSide == SellBiz then Charge(amount, fees.stampDuty) else 0.0;
      var transfer := Charge(amount, fees.transferFee);
      var c := if commission < fees.minimumCost then fees.minimumCost else commission;
      ChargeNonNegative(amount, fees.stampDuty);
      ChargeNonNegative(amount, fees.transferFee);
      RoundMonotone(fees.minimumCost, c + transfer + stamp, 2);
      RoundIdempotent(c + transfer + stamp, 2);
    }
  }

  /** A larger fill never costs less, and a sell never costs less than a buy
      of the same amount; the stamp duty does not affect a buy. */
  lemma FeeMonotone(a: real, b: real, fees: FeeSchedule, orderSide: int, fake: bool, stampDuty: real)
    requires 0.0 <= a <= b && fees.NonNegative()
    ensures TradeFees(a, fees, orderSide, fake) <= TradeFees(b, fees, orderSide, fake)
    ensures TradeFees(a, fees, 1, fake) <= TradeFees(a, fees, SellBiz, fake)
    ensures TradeFees(a, fees, 1, fake) == TradeFees(a, fees.(stampDuty := stampDuty), 1, fake)
  {
    var f := fees;
    ChargeMonotone(a, b, f.commission, f.commission);
    ChargeMonotone(a, b, f.commission + f.stampDuty, f.commission + f.stampDuty);
    ChargeMonotone(a, b, f.stampDuty, f.stampDuty);
    ChargeMonotone(a, b, f.transferFee, f.transferFee);
    ChargeMonotone(a, a, f.commission, f.commission + f.stampDuty);
    ChargeNonNegative(a, f.stampDuty);
    ChargeNonNegative(b, f.stampDuty);
    ChargeNonNegative(a, f.transferFee);
    if !fake {
      var ca := Charge(a, f.commission);
      var cb := Charge(b, f.commission);
      var ma := if ca < f.minimumCost then f.minimumCost else ca;
      var mb := if cb < f.minimumCost then f.minimumCost else cb;
      var sa := if orderSide == SellBiz then Charge(a, f.stampDuty) else 0.0;
      var sb := if orderSide == SellBiz then Charge(b, f.stampDuty) else 0.0;
      ChargeNonNegative(a, f.commission);
      RoundMonotone(ma + Charge(a, f.transferFee) + sa, mb + Charge(b, f.transferFee) + sb, 2);
      RoundMonotone(ma + Charge(a, f.transferFee), ma + Charge(a, f.transferFee) + Charge(a, f.stampDuty), 2);
    }
  }

  lemma Cents(k: int)
    ensures Round2(k as real / 100.0) == k as real / 100.0
  {
    assert Pow10(2) == 100;
    RoundOfMultiple(k, 2);
  }

  /** With the rates the fee docstring describes in words, in the per-10000
      units the code divides by (commission 3, stamp duty 10, transfer fee
      0.2) and a minimum of 5: a simulated sell of 20000 costs 26.00, a live
      one 26.40, and a simulated buy of 1000 the minimum. */
  lemma FeeExamples()
    ensures var f := FeeSchedule(3.0, 10.0, 0.2, 5.0);
      TradeFees(20000.0, f, SellBiz, true) == 26.0
      && TradeFees(20000.0, f, SellBiz, false) == 26.4
      && TradeFees(1000.0, f, 1, true) == 5.0
  {
    Cents(2600);
    Cents(600);
    Cents(2000);
    Cents(40);
    Cents(2640);
    Cents(30);
    assert 26.0 == 2600 as real / 100.0;
    assert 6.0 == 600 as real / 100.0;
    assert 20.0 == 2000 as real / 100.0;
    assert 0.4 == 40 as real / 100.0;
    assert 26.4 == 2640 as real / 100.0;
    assert 0.3 == 30 as real / 100.0;
  }

  // Mapping the engine's side and kind to the terminal's codes.

  /** `helper_set_gm_order_side` */
  function SetGmOrderSide(side: Side): GmCodes.OrderBiz {
    if side == Sell then GmCodes.OrderBiz.BizSell else GmCodes.OrderBiz.BizBuy
  }

  /** `helper_set_gm_order_type` */
  function SetGmOrderType(kind: Kind): GmCodes.GmOrderType {
    if kind == Market then GmCodes.GmOrderType.BestCancel else GmCodes.GmOrderType.LimitPrice
  }

  /** The mappings are inverted by the conversions the event loader applies:
      the terminal code of a side or kind converts back to it. */
  lemma SetGmRoundTrip(side: Side, kind: Kind)
    ensures SideConvert(SetGmOrderSide(side).Code()) == Some(side)
    ensures KindConvert(SetGmOrderType(kind).Code()) == Some(kind)
    ensures SetGmOrderSide(side).Code() == (if side == Sell then 2 else 1)
    ensures SetGmOrderType(kind).Code() == (if kind == Market then 24 else 1)
  {
  }

  // Loading and resetting a trade event.

  /** The event `helper_load_trade_event` builds from an order record. */
  function LoadedState(r: OrderReport): EventState
    requires WellFormed(r.symbol)
  {
    EventState(Joinquant(r.symbol), r.price, r.volume, SideConvert(r.orderBusiness),
               KindConvert(r.orderType), r.createdAt, r.sid, StatusConvert(r.status),
               0.0, 0, r.orderId, 0.0, r.rejDetail, r.recvAt, 0.0, false)
  }

  /** `helper_load_trade_event`: converting the code makes the loader raise
      for a record whose symbol is not of the form "a.b"; such records are
      excluded here and handled by the callers. */
  method LoadTradeEvent(r: OrderReport) returns (e: TradeEvent)
    requires WellFormed(r.symbol)
    ensures fresh(e) && e.State() == LoadedState(r)
  {
    e := new TradeEvent(Joinquant(r.symbol), r.price, r.volume, SideConvert(r.orderBusiness),
                        KindConvert(r.orderType), r.createdAt, r.sid, StatusConvert(r.status),
                        0.0, 0, r.orderId, 0.0, r.rejDetail, r.recvAt);
  }

  /** A record decoded from the terminal already carries its code in the
      engine's form; converting it again at load time leaves it unchanged, so
      the event is identified by the order's sid and has the engine status of
      the terminal status. */
  lemma LoadedEvent(r: OrderReport, num: string, x: string)
    requires Text.AllDigits(num) && '.' !in num && '.' !in x && r.symbol == Dotted(num, x)
    ensures LoadedState(r).code == r.symbol
    ensures LoadedState(r).entrustNo == r.sid && LoadedState(r).status == StatusConvert(r.status)
    ensures LoadedState(r).status != Received
  {
    JoinquantOfEngineForm(num, x);
  }

  /** The totals cleared by `helper_reset_event`. The source reads the
      creation time from a misspelt attribute; the model uses `created_at`. */
  function ResetState(e: EventState): EventState {
    e.(avgPrice := 0.0, filled := 0, tradeFees := 0.0, filledAmount := 0.0, recvAt := e.createdAt)
  }

  /** `helper_reset_event` */
  method ResetEvent(ev: TradeEvent)
    modifies ev
    ensures ev.State() == ResetState(old(ev.State()))
  {
    ev.avgPrice := 0.0;
    ev.filled := 0;
    ev.tradeFees := 0.0;
    ev.filledAmount := 0.0;
    ev.recvAt := ev.createdAt;
  }

  // Aggregating the fills of an order.

  /** The amount of one fill, rounded to cents. */
  function Amount(x: ExecReport): real {
    Round2(x.volume as real * x.price)
  }

  function SumVolume(xs: seq<ExecReport>): int {
    if |xs| == 0 then 0 else SumVolume(xs[..|xs| - 1]) + xs[|xs| - 1].volume
  }

  function SumAmount(xs: seq<ExecReport>): real {
    if |xs| == 0 then 0.0 else SumAmount(xs[..|xs| - 1]) + Amount(xs[|xs| - 1])
  }

  /** The fee of each fill is computed on that fill's own amount. */
  function SumFees(xs: seq<ExecReport>, fees: FeeSchedule, fake: bool): real {
    if |xs| == 0 then 0.0
    else SumFees(xs[..|xs| - 1], fees, fake) + TradeFees(Amount(xs[|xs| - 1]), fees, xs[|xs| - 1].orderBusiness, fake)
  }

  /** `x` is a whole number of cents. */
  predicate WholeCents(x: real) {
    (x * 100.0).Floor as real == x * 100.0
  }

  lemma WholeCentsRound(x: real)
    requires WholeCents(x)
    ensures Round2(x) == x
  {
    var k := (x * 100.0).Floor;
    assert x == k as real / 100.0;
    Cents(k);
  }

  lemma AmountWholeCents(x: ExecReport)
    ensures WholeCents(Amount(x))
  {
    RoundCents(x.volume as real * x.price);
  }

  lemma RoundCents(b: real)
    ensures WholeCents(Round2(b))
  {
    RoundIsMultiple(b, 2);
    var k := RoundHalfAway(Scale(b, Pow10(2) as real));
    assert Pow10(2) == 100;
    assert Round2(b) * 100.0 == k as real;
  }

  lemma WholeCentsAdd(a: real, b: real)
    requires WholeCents(a) && WholeCents(b)
    ensures WholeCents(a + b)
  {
    var ka, kb := (a * 100.0).Floor, (b * 100.0).Floor;
    assert (a + b) * 100.0 == (ka + kb) as real;
  }

  lemma {:induction false} SumAmountWholeCents(xs: seq<ExecReport>)
    ensures WholeCents(SumAmount(xs))
  {
    if |xs| > 0 {
      var init := xs[..|xs| - 1];
      var x := xs[|xs| - 1];
      SumAmountWholeCents(init);
      AmountWholeCents(x);
      assert SumAmount(xs) == SumAmount(init) + Amount(x);
      WholeCentsAdd(SumAmount(init), Amount(x));
    }
  }

  /** A sum of amounts rounded to cents is a whole number of cents, so the
      final rounding of the total changes nothing. */
  lemma SumAmountCents(xs: seq<ExecReport>)
    ensures Round2(SumAmount(xs)) == SumAmount(xs)
  {
    SumAmountWholeCents(xs);
    WholeCentsRound(SumAmount(xs));
  }

  /** The totals of two runs of fills add up. */
  lemma {:induction false} SumsAppend(xs: seq<ExecReport>, ys: seq<ExecReport>, fees: FeeSchedule, fake: bool)
    ensures SumVolume(xs + ys) == SumVolume(xs) + SumVolume(ys)
    ensures SumAmount(xs + ys) == SumAmount(xs) + SumAmount(ys)
    ensures SumFees(xs + ys, fees, fake) == SumFees(xs, fees, fake) + SumFees(ys, fees, fake)
  {
    if |ys| > 0 {
      var init := ys[..|ys| - 1];
      assert (xs + ys)[..|xs + ys| - 1] == xs + init;
      SumsAppend(xs, init, fees, fake);
    } else {
      assert xs + ys == xs;
    }
  }

  datatype Totals = Totals(volume: int, amount: real, fees: real, recvAt: Option<DateTime>)

  /** The totals over the fills `m` of one order. */
  function TotalsOf(m: seq<ExecReport>, fees: FeeSchedule, fake: bool): Totals {
    Totals(SumVolume(m), SumAmount(m), SumFees(m, fees, fake),
           if |m| == 0 then None else Some(m[|m| - 1].recvAt))
  }

  /** The event with the totals `t` written back: the average price, the
      filled volume and amount and the fees, the amounts rounded to cents,
      and the receive time of the last fill when there is one. */
  function WithTotals(e: EventState, t: Totals): EventState {
    e.(avgPrice := if t.volume == 0 then 0.0 else t.amount / t.volume as real,
       filled := t.volume,
       filledAmount := Round2(t.amount),
       tradeFees := Round2(t.fees),
       recvAt := if t.recvAt.None? then e.recvAt else t.recvAt.value)
  }

  /** The event's totals from the fills `m` of its order. */
  function Aggregate(e: EventState, m: seq<ExecReport>, fees: FeeSchedule, fake: bool): EventState {
    WithTotals(e, TotalsOf(m, fees, fake))
  }

  datatype Judged = Judged(state: EventState, done: bool)

  /** The outcome of `helper_sum_exec_reports_by_sid` on the event `e`. */
  function Judge(e: EventState, reports: seq<ExecReport>, fees: FeeSchedule, fake: bool): Judged {
    var a := Aggregate(e, MatchingExec(reports, e.entrustNo), fees, fake);
    if a.status == AllTx then
      if a.volume != a.filled then Judged(ResetState(a), false) else Judged(a, true)
    else if a.status == PartialTx || a.status == Canceled then
      if a.volume < a.filled then Judged(ResetState(a), true) else Judged(a, false)
    else Judged(a, true)
  }

  /** What the verdict guarantees: a completed fully-traded order has all of
      its volume filled; a retry leaves either a cleared fully-traded order or
      a partial or canceled one within its volume; no order with a fill
      status reports more than it asked for; and nothing but the totals
      changes. The average price times the filled volume is exactly the filled
      amount. */
  lemma JudgeProperties(e: EventState, reports: seq<ExecReport>, fees: FeeSchedule, fake: bool)
    ensures var j := Judge(e, reports, fees, fake);
      (j.state.status == AllTx && j.done ==> j.state.filled == j.state.volume)
      && (!j.done ==> (j.state.status == AllTx && j.state.filled == 0 && j.state.filledAmount == 0.0)
                      || ((j.state.status == PartialTx || j.state.status == Canceled) && j.state.filled <= j.state.volume))
      && (e.volume >= 0 && (j.state.status == AllTx || j.state.status == PartialTx || j.state.status == Canceled)
          ==> j.state.filled <= j.state.volume)
      && ResetState(j.state) == ResetState(e)
      && AverageHolds(j.state)
  {
    JudgeVerdict(e, reports, fees, fake);
    JudgeAverage(e, reports, fees, fake);
  }

  /** The average price times the filled volume gives back the filled
      amount. */
  predicate AverageHolds(e: EventState) {
    e.filled != 0 ==> e.avgPrice * e.filled as real == e.filledAmount
  }

  lemma JudgeAverage(e: EventState, reports: seq<ExecReport>, fees: FeeSchedule, fake: bool)
    ensures AverageHolds(Judge(e, reports, fees, fake).state)
  {
    AggregateAverage(e, MatchingExec(reports, e.entrustNo), fees, fake);
  }

  /** The verdict changes nothing but the totals. */
  lemma JudgeResets(e: EventState, reports: seq<ExecReport>, fees: FeeSchedule, fake: bool)
    ensures ResetState(Judge(e, reports, fees, fake).state) == ResetState(e)
  {
  }

  lemma JudgeVerdict(e: EventState, reports: seq<ExecReport>, fees: FeeSchedule, fake: bool)
    ensures var j := Judge(e, reports, fees, fake);
      (j.state.status == AllTx && j.done ==> j.state.filled == j.state.volume)
      && (!j.done ==> (j.state.status == AllTx && j.state.filled == 0 && j.state.filledAmount == 0.0)
                      || ((j.state.status == PartialTx || j.state.status == Canceled) && j.state.filled <= j.state.volume))
      && (e.volume >= 0 && (j.state.status == AllTx || j.state.status == PartialTx || j.state.status == Canceled)
          ==> j.state.filled <= j.state.volume)
      && ResetState(j.state) == ResetState(e)
  {
    var a := Aggregate(e, MatchingExec(reports, e.entrustNo), fees, fake);
    assert ResetState(a) == ResetState(e);
  }

  /** A fully-traded order whose fills add up to its volume is done, filled
      in full. */
  lemma JudgeComplete(e: EventState, reports: seq<ExecReport>, fees: FeeSchedule, fake: bool)
    requires e.status == AllTx && SumVolume(MatchingExec(reports, e.entrustNo)) == e.volume
    ensures var j := Judge(e, reports, fees, fake);
      j.done && j.state.status == AllTx && j.state.filled == e.volume
  {
  }

  /** The average price times the filled volume is the filled amount. */
  lemma AggregateAverage(e: EventState, m: seq<ExecReport>, fees: FeeSchedule, fake: bool)
    ensures AverageHolds(Aggregate(e, m, fees, fake))
  {
    SumAmountCents(m);
    WithTotalsAverage(e, TotalsOf(m, fees, fake));
  }

  lemma WithTotalsAverage(e: EventState, t: Totals)
    requires Round2(t.amount) == t.amount
    ensures AverageHolds(WithTotals(e, t))
  {
    if t.volume != 0 {
      DivMul(t.amount, t.volume as real);
    }
  }

  lemma DivMul(x: real, y: real)
    requires y != 0.0
    ensures x / y * y == x
  {
  }

  /** The summing loop of `helper_sum_exec_reports_by_sid`: only the rows of
      the order `sid` count; the receive time is that of its last fill. */
  method SumFills(reports: seq<ExecReport>, sid: string, fees: FeeSchedule, fake: bool) returns (t: Totals)
    ensures t == TotalsOf(MatchingExec(reports, sid), fees, fake)
  {
    var totalVolume := 0;
    var totalAmount := 0.0;
    var totalCommission := 0.0;
    var recvAt: Option<DateTime> := None;
    ghost var matched: seq<ExecReport> := [];
    var i := 0;
    while i < |reports|
      invariant 0 <= i <= |reports|
      invariant matched == MatchingExec(reports[..i], sid)
      invariant Totals(totalVolume, totalAmount, totalCommission, recvAt) == TotalsOf(matched, fees, fake)
    {
      var x := reports[i];
      MatchingExecNext(reports, i, sid);
      if x.sid == sid {
        TotalsOfAppend(matched, x, fees, fake);
        matched := matched + [x];
        totalVolume := totalVolume + x.volume;
        var amount := Amount(x);
        totalAmount := totalAmount + amount;
        totalCommission := totalCommission + TradeFees(amount, fees, x.orderBusiness, fake);
        recvAt := Some(x.recvAt);
      }
      i := i + 1;
    }
    assert reports[..i] == reports;
    return Totals(totalVolume, totalAmount, totalCommission, recvAt);
  }

  lemma MatchingExecNext(rows: seq<ExecReport>, i: nat, sid: string)
    requires i < |rows|
    ensures MatchingExec(rows[..i + 1], sid)
            == MatchingExec(rows[..i], sid) + (if rows[i].sid == sid then [rows[i]] else [])
  {
    assert rows[..i + 1][..i] == rows[..i];
  }

  /** One more fill adds its volume, amount and fee to the totals. */
  lemma TotalsOfAppend(m: seq<ExecReport>, x: ExecReport, fees: FeeSchedule, fake: bool)
    ensures var t := TotalsOf(m, fees, fake);
      TotalsOf(m + [x], fees, fake)
      == Totals(t.volume + x.volume, t.amount + Amount(x),
                t.fees + TradeFees(Amount(x), fees, x.orderBusiness, fake), Some(x.recvAt))
  {
    assert (m + [x])[..|m|] == m;
  }

  /** The totals written back into the event: the average price, the filled
      volume and amount, the fees, and the receive time of the last fill. */
  method StoreTotals(ev: TradeEvent, t: Totals)
    modifies ev
    ensures ev.State() == WithTotals(old(ev.State()), t)
  {
    if t.volume == 0 {
      ev.avgPrice := 0.0;
    } else {
      ev.avgPrice := t.amount / t.volume as real;
    }
    ev.filled := t.volume;
    ev.filledAmount := Round2(t.amount);
    ev.tradeFees := Round2(t.fees);
    if t.recvAt.Some? {
      ev.recvAt := t.recvAt.value;
    }
  }

  /** `helper_sum_exec_reports_by_sid`: sums the fills of the event's order,
      writes the totals into the event and returns whether the caller may
      stop polling. */
  method SumExecReports(reports: seq<ExecReport>, ev: TradeEvent, fees: FeeSchedule, fake: bool)
    returns (done: bool)
    modifies ev
    ensures ev.State() == Judge(old(ev.State()), reports, fees, fake).state
    ensures done == Judge(old(ev.State()), reports, fees, fake).done
  {
    var t := SumFills(reports, ev.entrustNo, fees, fake);
    StoreTotals(ev, t);
    if ev.status == AllTx {
      if ev.volume != ev.filled {
        ResetEvent(ev);
        return false;
      } else {
        return true;
      }
    }
    if ev.status == PartialTx || ev.status == Canceled {
      if ev.volume < ev.filled {
        ResetEvent(ev);
        return true;
      } else {
        return false;
      }
    }
    return true;
  }

  // Polling.

  /** The file as the `k`-th read sees it; reads past the last snapshot see
      the last one. */
  function Snapshot<T>(snaps: seq<seq<T>>, k: nat): seq<T> {
    if |snaps| == 0 then [] else snaps[if k < |snaps| then k else |snaps| - 1]
  }

  /** The milliseconds each unsuccessful poll uses up. */
  const PollStep: int := 200

  datatype ExecPolled = ExecPolled(state: EventState, reports: seq<ExecReport>)

  /** `helper_get_data_from_exec_reports` from the `k`-th read on, with `t`
      milliseconds left and `last` the fills of the previous read: before
      every read the event is reset; a read with fills is aggregated, and the
      poll stops when the verdict allows it. */
  function ExecPoll(snaps: seq<seq<ExecReport>>, k: nat, sid: string, e: EventState,
                    fees: FeeSchedule, fake: bool, t: int, last: seq<ExecReport>): ExecPolled
    decreases if t > 0 then t else 0
  {
    if t <= 0 then ExecPolled(e, last)
    else
      var e0 := ResetState(e);
      var reports := MatchingExec(Snapshot(snaps, k), sid);
      if |reports| > 0 && Judge(e0, reports, fees, fake).done then
        ExecPolled(Judge(e0, reports, fees, fake).state, reports)
      else
        var e1 := if |reports| > 0 then Judge(e0, reports, fees, fake).state else e0;
        ExecPoll(snaps, k + 1, sid, e1, fees, fake, t - PollStep, reports)
  }

  /** A poll whose first read already completes the order stops there. */
  lemma ExecPollFirstDone(snaps: seq<seq<ExecReport>>, sid: string, e: EventState,
                          fees: FeeSchedule, fake: bool, t: int)
    requires t > 0 && |snaps| > 0
    requires |MatchingExec(snaps[0], sid)| > 0 && Judge(ResetState(e), MatchingExec(snaps[0], sid), fees, fake).done
    ensures ExecPoll(snaps, 0, sid, e, fees, fake, t, []).state
            == Judge(ResetState(e), MatchingExec(snaps[0], sid), fees, fake).state
  {
    assert Snapshot(snaps, 0) == snaps[0];
  }

  /** Because of the reset before every read, the event a poll with a
      positive budget ends with depends only on the last read: it is the
      verdict on those fills, or the cleared event when there were none. */
  lemma {:induction false} ExecPollFinal(snaps: seq<seq<ExecReport>>, k: nat, sid: string, e: EventState,
                                         fees: FeeSchedule, fake: bool, t: int, last: seq<ExecReport>)
    requires t > 0
    ensures var p := ExecPoll(snaps, k, sid, e, fees, fake, t, last);
      p.state == (if |p.reports| > 0 then Judge(ResetState(e), p.reports, fees, fake).state else ResetState(e))
      && p.reports == MatchingExec(p.reports, sid)
    decreases t
  {
    var e0 := ResetState(e);
    var reports := MatchingExec(Snapshot(snaps, k), sid);
    MatchingExecIdempotent(Snapshot(snaps, k), sid);
    if |reports| > 0 && Judge(e0, reports, fees, fake).done {
    } else {
      var e1 := if |reports| > 0 then Judge(e0, reports, fees, fake).state else e0;
      if |reports| > 0 {
        JudgeResets(e0, reports, fees, fake);
      }
      if t - PollStep > 0 {
        ExecPollFinal(snaps, k + 1, sid, e1, fees, fake, t - PollStep, reports);
      }
    }
  }

  /** `helper_get_data_from_exec_reports`: `None` when the execution-report
      file does not exist, else the fills of the last read, with the event
      holding their aggregate. */
  method PollExec(snaps: Option<seq<seq<ExecReport>>>, sid: string, ev: TradeEvent,
                  fees: FeeSchedule, fake: bool, timeout: int)
    returns (r: Option<seq<ExecReport>>)
    modifies ev
    ensures snaps.None? ==> r.None? && ev.State() == old(ev.State())
    ensures snaps.Some? ==>
      var p := ExecPoll(snaps.value, 0, sid, old(ev.State()), fees, fake, timeout, []);
      r == Some(p.reports) && ev.State() == p.state
  {
    if snaps.None? {
      return None;
    }
    var execReports: seq<ExecReport> := [];
    var t := timeout;
    var k := 0;
    while t > 0
      invariant ExecPoll(snaps.value, k, sid, ev.State(), fees, fake, t, execReports)
                == ExecPoll(snaps.value, 0, sid, old(ev.State()), fees, fake, timeout, [])
      decreases if t > 0 then t else 0
    {
      ghost var before := ev.State();
      ResetEvent(ev);
      var scan := ExecReportsBySid(Some(Snapshot(snaps.value, k)), sid);
      execReports := scan.value.reports;
      if |execReports| > 0 {
        var done := SumExecReports(execReports, ev, fees, fake);
        if done {
          break;
        }
      }
      t := t - PollStep;
      k := k + 1;
    }
    return Some(execReports);
  }

  datatype StatusPolled = StatusPolled(reports: seq<OrderReport>, remaining: int)

  /** `helper_get_order_status_change_data` with the scanner's result codes
      read as the scanner defines them: a read that finds the order keeps its
      last row; a terminal row ends the poll; `remaining` is the budget left
      (it is not lowered for the read that ends the poll). */
  function StatusPoll(snaps: seq<seq<OrderReport>>, k: nat, sid: string, t: int, last: seq<OrderReport>): StatusPolled
    decreases if t > 0 then t else 0
  {
    if t <= 0 then StatusPolled(last, t)
    else
      var found := LastMatch(Snapshot(snaps, k), sid);
      var reports := if found.Some? then [found.value] else [];
      if StatusClass(found) == 2 then StatusPolled(reports, t)
      else StatusPoll(snaps, k + 1, sid, t - PollStep, reports)
  }

  /** A poll whose first read finds the order terminal stops there with the
      whole budget. */
  lemma StatusPollFirstTerminal(snaps: seq<seq<OrderReport>>, sid: string, t: int, o: OrderReport)
    requires t > 0 && |snaps| > 0 && LastMatch(snaps[0], sid) == Some(o) && Terminal(o.status)
    ensures StatusPoll(snaps, 0, sid, t, []) == StatusPolled([o], t)
  {
    assert Snapshot(snaps, 0) == snaps[0];
  }

  /** The poll returns at most one row, the order's own; budget is left over
      only when the poll ended on a terminal row; and an order already
      terminal at the first read ends the poll at once, with the whole budget
      left for reading its fills. */
  lemma {:induction false} StatusPollResult(snaps: seq<seq<OrderReport>>, k: nat, sid: string, t: int, last: seq<OrderReport>)
    requires |last| <= 1 && (|last| == 1 ==> last[0].sid == sid)
    ensures var p := StatusPoll(snaps, k, sid, t, last);
      |p.reports| <= 1 && (|p.reports| == 1 ==> p.reports[0].sid == sid)
      && (p.remaining > 0 ==> |p.reports| == 1 && Terminal(p.reports[0].status))
      && (t > 0 && StatusClass(LastMatch(Snapshot(snaps, k), sid)) == 2 ==> p.remaining == t)
    decreases if t > 0 then t else 0
  {
    if t > 0 {
      var found := LastMatch(Snapshot(snaps, k), sid);
      var reports := if found.Some? then [found.value] else [];
      if StatusClass(found) != 2 {
        StatusPollResult(snaps, k + 1, sid, t - PollStep, reports);
      }
    }
  }

  /** The poll as written: the poller takes 0 for "finished" and -1 for "not
      found", while the scanner answers 0 for "not found" and 2 for
      "finished". A read that finds nothing therefore looks up the missing
      "report" entry and raises (`None` here), and a terminal row never ends
      the poll. */
  function StatusPollAsWritten(snaps: seq<seq<OrderReport>>, k: nat, sid: string, t: int, last: seq<OrderReport>): Option<StatusPolled>
    decreases if t > 0 then t else 0
  {
    if t <= 0 then Some(StatusPolled(last, t))
    else
      var found := LastMatch(Snapshot(snaps, k), sid);
      if found.None? then None
      else StatusPollAsWritten(snaps, k + 1, sid, t - PollStep, [found.value])
  }

  /** With an order already filled at the first read, the poll as written
      reads five times and leaves no budget, while the intended poll stops at
      once with the whole budget; with an order not yet in the file, the poll
      as written raises. */
  lemma StatusPollMismatch(t: DateTime)
    ensures var filled := OrderReport("a", "", "", "600000.XSHG", 1, 1, 3, 0, "", 10.0, 100, 100, t, t);
      StatusPoll([[filled]], 0, "a", 1000, []) == StatusPolled([filled], 1000)
      && StatusPollAsWritten([[filled]], 0, "a", 1000, []) == Some(StatusPolled([filled], 0))
    ensures StatusPollAsWritten([[]], 0, "a", 1000, []) == None
    ensures StatusPoll([[]], 0, "a", 1000, []) == StatusPolled([], 0)
  {
    var filled := OrderReport("a", "", "", "600000.XSHG", 1, 1, 3, 0, "", 10.0, 100, 100, t, t);
    var snaps := [[filled]];
    assert LastMatch([filled], "a") == Some(filled);
    assert forall k: nat :: Snapshot(snaps, k) == [filled];
    assert StatusPollAsWritten(snaps, 5, "a", 0, [filled]) == Some(StatusPolled([filled], 0));
    assert StatusPollAsWritten(snaps, 4, "a", 200, [filled]) == Some(StatusPolled([filled], 0));
    assert StatusPollAsWritten(snaps, 3, "a", 400, [filled]) == Some(StatusPolled([filled], 0));
    assert StatusPollAsWritten(snaps, 2, "a", 600, [filled]) == Some(StatusPolled([filled], 0));
    assert StatusPollAsWritten(snaps, 1, "a", 800, [filled]) == Some(StatusPolled([filled], 0));
    var empty: seq<seq<OrderReport>> := [[]];
    assert forall k: nat :: Snapshot(empty, k) == [];
    assert StatusPoll(empty, 5, "a", 0, []) == StatusPolled([], 0);
    assert StatusPoll(empty, 4, "a", 200, []) == StatusPolled([], 0);
    assert StatusPoll(empty, 3, "a", 400, []) == StatusPolled([], 0);
    assert StatusPoll(empty, 2, "a", 600, []) == StatusPolled([], 0);
    assert StatusPoll(empty, 1, "a", 800, []) == StatusPolled([], 0);
  }

  /** `helper_get_order_status_change_data` (intended result codes): `None`
      when the status-change file does not exist. */
  method PollStatus(snaps: Option<seq<seq<OrderReport>>>, sid: string, timeout: int)
    returns (r: Option<StatusPolled>)
    ensures r.None? <==> snaps.None?
    ensures r.Some? ==> r.value == StatusPoll(snaps.value, 0, sid, timeout, [])
  {
    if snaps.None? {
      return None;
    }
    var reports: seq<OrderReport> := [];
    var t := timeout;
    var k := 0;
    while t > 0
      invariant StatusPoll(snaps.value, k, sid, t, reports) == StatusPoll(snaps.value, 0, sid, timeout, [])
      decreases if t > 0 then t else 0
    {
      reports := [];
      var scan := StatusChangeBySid(Some(Snapshot(snaps.value, k)), sid);
      var result := scan.value.result;
      if result != 0 {
        reports := reports + [scan.value.report.value];
      }
      if result == 2 {
        break;
      }
      t := t - PollStep;
      k := k + 1;
    }
    return Some(StatusPolled(reports, t));
  }

  /** The budget of the poll that waits for cancellations. */
  const CancelBudget: int := 2000

  /** `helper_get_order_status_change_by_sidlist` from the `k`-th read on: a
      read that finds any listed order replaces the result, and a read that
      finds every listed order terminal ends the poll. */
  function CancelPoll(snaps: seq<seq<OrderReport>>, k: nat, sids: seq<string>, t: int,
                      last: map<string, OrderReport>): map<string, OrderReport>
    decreases if t > 0 then t else 0
  {
    if t <= 0 then last
    else
      var scan := StatusChangeBySidList(Snapshot(snaps, k), sids);
      var reports := if scan.result != -1 then scan.reports else last;
      if scan.result == 0 then reports
      else CancelPoll(snaps, k + 1, sids, t - PollStep, reports)
  }

  /** Every entry is the row of a listed order, under that order's sid. */
  predicate ListedRows(m: map<string, OrderReport>, sids: seq<string>) {
    forall s :: s in m ==> s in sids && m[s].sid == s
  }

  lemma LastPerSidListed(rows: seq<OrderReport>, sids: seq<string>)
    ensures ListedRows(LastPerSid(rows, sids), sids)
  {
  }

  lemma {:induction false} CancelPollListed(snaps: seq<seq<OrderReport>>, k: nat, sids: seq<string>, t: int,
                                            last: map<string, OrderReport>)
    requires ListedRows(last, sids)
    ensures ListedRows(CancelPoll(snaps, k, sids, t, last), sids)
    decreases if t > 0 then t else 0
  {
    if t > 0 {
      var scan := StatusChangeBySidList(Snapshot(snaps, k), sids);
      LastPerSidListed(Snapshot(snaps, k), sids);
      var reports := if scan.result != -1 then scan.reports else last;
      if scan.result != 0 {
        CancelPollListed(snaps, k + 1, sids, t - PollStep, reports);
      }
    }
  }

  /** Every entry of the result is the row of a listed order, under that
      order's sid; and when the first read already shows every listed order
      terminal, the result is that read's rows. */
  lemma CancelPollResult(snaps: seq<seq<OrderReport>>, k: nat, sids: seq<string>, t: int,
                         last: map<string, OrderReport>)
    requires ListedRows(last, sids)
    ensures ListedRows(CancelPoll(snaps, k, sids, t, last), sids)
    ensures t > 0 && StatusChangeBySidList(Snapshot(snaps, k), sids).result == 0
            ==> CancelPoll(snaps, k, sids, t, last) == LastPerSid(Snapshot(snaps, k), sids)
  {
    CancelPollListed(snaps, k, sids, t, last);
  }

  /** `helper_get_order_status_change_by_sidlist`: `None` when the
      status-change file does not exist, else the rows of the listed orders
      found by the poll, with a budget of 2000 milliseconds. */
  method PollCancel(snaps: Option<seq<seq<OrderReport>>>, sids: seq<string>)
    returns (r: Option<map<string, OrderReport>>)
    ensures r.None? <==> snaps.None?
    ensures r.Some? ==> r.value == CancelPoll(snaps.value, 0, sids, CancelBudget, map[])
  {
    if snaps.None? {
      return None;
    }
    var t := CancelBudget;
    var reports: map<string, OrderReport> := map[];
    var k := 0;
    while t > 0
      invariant CancelPoll(snaps.value, k, sids, t, reports) == CancelPoll(snaps.value, 0, sids, CancelBudget, map[])
      decreases if t > 0 then t else 0
    {
      var result := StatusChangeBySidList(Snapshot(snaps.value, k), sids);
      if result.result != -1 {
        reports := result.reports;
      }
      if result.result == 0 {
        break;
      }
      t := t - PollStep;
      k := k + 1;
    }
    return Some(reports);
  }
}
