/** The engine's own categories (side, order kind, order status), their
    conversion from the terminal's codes, and the trade event returned to
    callers. */
module CommonTypes {
  import opened Values
  import GmCodes

  /** `OrderSide`: the engine numbers a sell -1, unlike the terminal's 2. */
  datatype Side = Buy | Sell
  {
    function Code(): int {
      match this
      case Buy => 1
      case Sell => -1
    }
  }

  /** `OrderType`: limit or market. */
  datatype Kind = Limit | Market
  {
    function Code(): int {
      match this
      case Limit => 1
      case Market => 2
    }
  }

  /** `OrderStatus`: the engine's order status. */
  datatype Status = Error | Received | Submitted | PartialTx | AllTx | Canceled
  {
    function Code(): int {
      match this
      case Error => -1
      case Received => 0
      case Submitted => 1
      case PartialTx => 2
      case AllTx => 3
      case Canceled => 4
    }
  }

  /** `OrderSide.convert`: terminal business code to engine side. */
  function SideConvert(c: int): Option<Side> {
    if c == 1 then Some(Buy) else if c == 2 then Some(Sell) else None
  }

  /** `OrderType.convert`: terminal order-type code to engine kind. */
  function KindConvert(c: int): Option<Kind> {
    if c == 1 then Some(Limit) else if c == 24 then Some(Market) else None
  }

  /** `OrderStatus.convert`: terminal status code to engine status. */
  function StatusConvert(c: int): (r: Status)
    ensures r != Received
  {
    if c == 0 || c == 9 || c == 8 then Error
    else if c == 1 || c == 10 || c == 6 then Submitted
    else if c == 2 then PartialTx
    else if c == 3 then AllTx
    else if c == 5 || c == 12 then Canceled
    else Error
  }

  /** The side conversion is defined exactly on the terminal's stock business
      codes, buy to buy and sell to sell; the engine's own sell code -1 is not
      one of them. */
  lemma SideConvertTable(c: int)
    ensures SideConvert(c).Some? <==> GmCodes.OrderBizFromCode(c).Some?
    ensures SideConvert(GmCodes.OrderBiz.BizBuy.Code()) == Some(Buy)
    ensures SideConvert(GmCodes.OrderBiz.BizSell.Code()) == Some(Sell)
    ensures SideConvert(Sell.Code()) == None
  {
  }

  /** Only limit (1) and best-five-then-cancel (24) are recognised; the other
      market codes of the terminal's table, and the engine's own market code 2,
      convert to nothing. */
  lemma KindConvertTable(c: int)
    ensures KindConvert(c) == Some(Limit) <==> c == GmCodes.GmOrderType.LimitPrice.Code()
    ensures KindConvert(c) == Some(Market) <==> c == GmCodes.GmOrderType.BestCancel.Code()
    ensures c in GmCodes.OrderTypeTable && c != 1 && c != 24 ==> KindConvert(c) == None
    ensures KindConvert(Market.Code()) == None
  {
  }

  /** The status conversion over the whole terminal status table, and Error
      for every code outside it. */
  lemma StatusConvertTable(c: int)
    ensures StatusConvert(c) == Submitted <==> c in {1, 6, 10}
    ensures StatusConvert(c) == PartialTx <==> c == 2
    ensures StatusConvert(c) == AllTx <==> c == 3
    ensures StatusConvert(c) == Canceled <==> c in {5, 12}
    ensures StatusConvert(c) == Error <==> c !in {1, 2, 3, 5, 6, 10, 12}
    ensures GmCodes.GmOrderStatusFromCode(c).None? ==> StatusConvert(c) == Error
  {
  }

  /** Every engine status except Received is reached from some terminal code. */
  lemma StatusConvertOnto(s: Status)
    requires s != Received
    ensures exists c :: StatusConvert(c) == s
  {
    match s
    case Error => assert StatusConvert(0) == s;
    case Submitted => assert StatusConvert(1) == s;
    case PartialTx => assert StatusConvert(2) == s;
    case AllTx => assert StatusConvert(3) == s;
    case Canceled => assert StatusConvert(5) == s;
  }

  /** The value of every field of a trade event. */
  datatype EventState = EventState(
    code: string, price: real, volume: int, orderSide: Option<Side>,
    bidType: Option<Kind>, createdAt: DateTime, entrustNo: string,
    status: Status, avgPrice: real, filled: int, orderId: string,
    tradeFees: real, reason: string, recvAt: DateTime, filledAmount: real,
    invalid: bool)

  /** `TradeEvent`: the result of an order, whose fill totals are overwritten
      in place while execution reports are aggregated. */
  class TradeEvent {
    var code: string
    var price: real
    var volume: int
    var orderSide: Option<Side>
    var bidType: Option<Kind>
    var createdAt: DateTime
    var entrustNo: string
    var status: Status
    var avgPrice: real
    var filled: int
    var orderId: string
    var reason: string
    var tradeFees: real
    var recvAt: DateTime
    var filledAmount: real
    var invalid: bool

    function State(): EventState
      reads this
    {
      EventState(code, price, volume, orderSide, bidType, createdAt, entrustNo,
                 status, avgPrice, filled, orderId, tradeFees, reason, recvAt,
                 filledAmount, invalid)
    }

    /** Stores the given fields (the sid as `entrust_no`); a new event has no
        filled amount and is not invalid. */
    constructor(symbol: string, price: real, volume: int, orderSide: Option<Side>,
                bidType: Option<Kind>, createdAt: DateTime, sid: string,
                status: Status, avgPrice: real, filled: int, orderId: string,
                tradeFees: real, reason: string, recvAt: DateTime)
      ensures State() == EventState(symbol, price, volume, orderSide, bidType,
                                    createdAt, sid, status, avgPrice, filled,
                                    orderId, tradeFees, reason, recvAt, 0.0, false)
    {
      this.code := symbol;
      this.price := price;
      this.volume := volume;
      this.orderSide := orderSide;
      this.bidType := bidType;
      this.createdAt := createdAt;
      this.entrustNo := sid;
      this.status := status;
      this.avgPrice := avgPrice;
      this.filled := filled;
      this.orderId := orderId;
      this.reason := reason;
      this.tradeFees := tradeFees;
      this.recvAt := recvAt;
      this.filledAmount := 0.0;
      this.invalid := false;
    }

    /** `toDict` */
    function ToDict(): map<string, Value>
      reads this
    {
      EventDict(State())
    }
  }

  function SideValue(s: Option<Side>): Value {
    if s.None? then Null else Int(s.value.Code())
  }

  function KindValue(k: Option<Kind>): Value {
    if k.None? then Null else Int(k.value.Code())
  }

  const EventKeys: set<string> := {
    "code", "price", "volume", "order_side", "bid_type", "time", "entrust_no",
    "status", "average_price", "filled", "filled_amount", "eid", "trade_fees",
    "reason", "recv_at"}

  /** The dictionary `toDict` builds from an event's fields. */
  function EventDict(e: EventState): (d: map<string, Value>)
    ensures d.Keys == EventKeys
  {
    map[
      "code" := Str(e.code),
      "price" := Real(e.price),
      "volume" := Int(e.volume),
      "order_side" := SideValue(e.orderSide),
      "bid_type" := KindValue(e.bidType),
      "time" := Time(e.createdAt),
      "entrust_no" := Str(e.entrustNo),
      "status" := Int(e.status.Code()),
      "average_price" := Real(e.avgPrice),
      "filled" := Int(e.filled),
      "filled_amount" := Real(e.filledAmount),
      "eid" := Str(e.orderId),
      "trade_fees" := Real(e.tradeFees),
      "reason" := Str(e.reason),
      "recv_at" := Time(e.recvAt)]
  }

  // Reading an event back from its dictionary, the partner of EventDict.

  function SideOfValue(v: Value): Option<Option<Side>> {
    match v
    case Null => Some(None)
    case Int(c) => if c == 1 then Some(Some(Buy)) else if c == -1 then Some(Some(Sell)) else None
    case _ => None
  }

  function KindOfValue(v: Value): Option<Option<Kind>> {
    match v
    case Null => Some(None)
    case Int(c) => if c == 1 then Some(Some(Limit)) else if c == 2 then Some(Some(Market)) else None
    case _ => None
  }

  function StatusOfCode(c: int): Option<Status> {
    if c == -1 then Some(Error)
    else if c == 0 then Some(Received)
    else if c == 1 then Some(Submitted)
    else if c == 2 then Some(PartialTx)
    else if c == 3 then Some(AllTx)
    else if c == 4 then Some(Canceled)
    else None
  }

  /** The event a dictionary describes, when it has every key with a value of
      the right shape. The dictionary carries no `invalid` flag. */
  function EventOfDict(d: map<string, Value>): Option<EventState> {
    if EventKeys <= d.Keys
       && d["code"].Str? && d["price"].Real? && d["volume"].Int?
       && SideOfValue(d["order_side"]).Some? && KindOfValue(d["bid_type"]).Some?
       && d["time"].Time? && d["entrust_no"].Str? && d["status"].Int?
       && StatusOfCode(d["status"].i).Some?
       && d["average_price"].Real? && d["filled"].Int? && d["filled_amount"].Real?
       && d["eid"].Str? && d["trade_fees"].Real? && d["reason"].Str? && d["recv_at"].Time?
    then
      Some(EventState(d["code"].s, d["price"].r, d["volume"].i,
                      SideOfValue(d["order_side"]).value, KindOfValue(d["bid_type"]).value,
                      d["time"].t, d["entrust_no"].s, StatusOfCode(d["status"].i).value,
                      d["average_price"].r, d["filled"].i, d["eid"].s,
                      d["trade_fees"].r, d["reason"].s, d["recv_at"].t,
                      d["filled_amount"].r, false))
    else None
  }

  /** The dictionary loses nothing but the `invalid` flag: in particular the
      broker order id comes back from "eid" and the average price from
      "average_price". */
  lemma EventDictRoundTrip(e: EventState)
    ensures EventOfDict(EventDict(e)) == Some(e.(invalid := false))
  {
    var d := EventDict(e);
    EventDictFields(e);
    assert SideOfValue(d["order_side"]) == Some(e.orderSide) by {
      if e.orderSide.Some? { assert e.orderSide.value == Buy || e.orderSide.value == Sell; }
    }
    assert KindOfValue(d["bid_type"]) == Some(e.bidType) by {
      if e.bidType.Some? { assert e.bidType.value == Limit || e.bidType.value == Market; }
    }
    assert StatusOfCode(d["status"].i) == Some(e.status);
  }

  lemma EventDictFields(e: EventState)
    ensures var d := EventDict(e);
      d["code"] == Str(e.code) && d["price"] == Real(e.price) && d["volume"] == Int(e.volume)
      && d["order_side"] == SideValue(e.orderSide) && d["bid_type"] == KindValue(e.bidType)
      && d["time"] == Time(e.createdAt) && d["entrust_no"] == Str(e.entrustNo)
      && d["status"] == Int(e.status.Code()) && d["average_price"] == Real(e.avgPrice)
      && d["filled"] == Int(e.filled) && d["filled_amount"] == Real(e.filledAmount)
      && d["eid"] == Str(e.orderId) && d["trade_fees"] == Real(e.tradeFees)
      && d["reason"] == Str(e.reason) && d["recv_at"] == Time(e.recvAt)
  {
  }
}
