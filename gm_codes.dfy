/** The trading terminal's own code tables: order business (side), order
    type, execution-report kind and order status, each with the integer the
    terminal writes in its files. The reference tables the terminal documents
    are kept beside them as maps from code to meaning. */
module GmCodes {
  import opened Values

  /** Order business: the stock rows of the terminal's table (futures rows 10-17
      are not part of the enumeration). */
  datatype OrderBiz = BizBuy | BizSell
  {
    function Code(): int {
      match this
      case BizBuy => 1
      case BizSell => 2
    }
  }

  function OrderBizFromCode(c: int): (r: Option<OrderBiz>)
    ensures r.Some? ==> r.value.Code() == c
  {
    if c == 1 then Some(BizBuy) else if c == 2 then Some(BizSell) else None
  }

  const StockBizTable: map<int, string> := map[1 := "stock, buy", 2 := "stock, sell"]

  /** The enumeration is exactly the stock part of the business table. */
  lemma OrderBizMatchesTable(c: int)
    ensures c in StockBizTable <==> OrderBizFromCode(c).Some?
  {
  }

  lemma OrderBizRoundTrip(b: OrderBiz)
    ensures OrderBizFromCode(b.Code()) == Some(b)
  {
  }

  /** Order type: limit and the market kinds the enumeration names. */
  datatype GmOrderType = LimitPrice | FillAndKill | FillOrKill | BestCancel | BestLimit
  {
    function Code(): int {
      match this
      case LimitPrice => 1
      case FillAndKill => 22
      case FillOrKill => 23
      case BestCancel => 24
      case BestLimit => 25
    }
  }

  function GmOrderTypeFromCode(c: int): (r: Option<GmOrderType>)
    ensures r.Some? ==> r.value.Code() == c
  {
    if c == 1 then Some(LimitPrice)
    else if c == 22 then Some(FillAndKill)
    else if c == 23 then Some(FillOrKill)
    else if c == 24 then Some(BestCancel)
    else if c == 25 then Some(BestLimit)
    else None
  }

  /** The terminal's order-type table, Shenzhen and Shanghai rows together. */
  const OrderTypeTable: map<int, string> := map[
    1 := "limit",
    20 := "market, best of counterparty (Shenzhen)",
    21 := "market, best of party (Shenzhen)",
    22 := "market, fill and kill (Shenzhen)",
    23 := "market, fill or kill (Shenzhen)",
    24 := "market, best five then cancel",
    25 := "market, best five then limit (Shanghai)"]

  /** Every enumerated order type is in the table; the table's codes 20 and 21
      have no enumeration member. */
  lemma GmOrderTypeMatchesTable(c: int)
    ensures GmOrderTypeFromCode(c).Some? ==> c in OrderTypeTable
    ensures c in OrderTypeTable && GmOrderTypeFromCode(c).None? <==> c == 20 || c == 21
  {
  }

  lemma GmOrderTypeRoundTrip(t: GmOrderType)
    ensures GmOrderTypeFromCode(t.Code()) == Some(t)
  {
  }

  /** Execution-report kind. */
  datatype ExecType =
    | ExecUnknown | ExecNew | ExecCanceled | ExecPendingCancel | ExecRejected
    | ExecSuspended | ExecPendingNew | ExecExpired | ExecTrade | ExecOrderStatus
    | ExecCancelRejected
  {
    function Code(): int {
      match this
      case ExecUnknown => 0
      case ExecNew => 1
      case ExecCanceled => 5
      case ExecPendingCancel => 6
      case ExecRejected => 8
      case ExecSuspended => 9
      case ExecPendingNew => 10
      case ExecExpired => 12
      case ExecTrade => 15
      case ExecOrderStatus => 18
      case ExecCancelRejected => 19
    }
  }

  function ExecTypeFromCode(c: int): (r: Option<ExecType>)
    ensures r.Some? ==> r.value.Code() == c
  {
    if c == 0 then Some(ExecUnknown)
    else if c == 1 then Some(ExecNew)
    else if c == 5 then Some(ExecCanceled)
    else if c == 6 then Some(ExecPendingCancel)
    else if c == 8 then Some(ExecRejected)
    else if c == 9 then Some(ExecSuspended)
    else if c == 10 then Some(ExecPendingNew)
    else if c == 12 then Some(ExecExpired)
    else if c == 15 then Some(ExecTrade)
    else if c == 18 then Some(ExecOrderStatus)
    else if c == 19 then Some(ExecCancelRejected)
    else None
  }

  /** The terminal's execution-kind table; trades and rejected cancellations
      are the two rows it marks as valid reports. */
  const ExecTypeTable: map<int, string> := map[
    0 := "unknown", 1 := "new", 5 := "canceled", 6 := "pending cancel",
    8 := "rejected", 9 := "suspended", 10 := "pending new", 12 := "expired",
    15 := "trade (valid)", 18 := "order status", 19 := "cancel rejected (valid)"]

  /** The code of a confirmed trade, the only kind the aggregation counts. */
  const TradeExecCode: int := 15

  lemma ExecTypeMatchesTable(c: int)
    ensures c in ExecTypeTable <==> ExecTypeFromCode(c).Some?
    ensures ExecTypeFromCode(TradeExecCode) == Some(ExecTrade)
  {
  }

  lemma ExecTypeRoundTrip(e: ExecType)
    ensures ExecTypeFromCode(e.Code()) == Some(e)
  {
  }

  /** Order status as the terminal records it. */
  datatype GmOrderStatus =
    | StUnknown | StNew | StPartiallyFilled | StFilled | StCanceled
    | StPendingCancel | StRejected | StSuspended | StPendingNew | StExpired
  {
    function Code(): int {
      match this
      case StUnknown => 0
      case StNew => 1
      case StPartiallyFilled => 2
      case StFilled => 3
      case StCanceled => 5
      case StPendingCancel => 6
      case StRejected => 8
      case StSuspended => 9
      case StPendingNew => 10
      case StExpired => 12
    }
  }

  function GmOrderStatusFromCode(c: int): (r: Option<GmOrderStatus>)
    ensures r.Some? ==> r.value.Code() == c
  {
    if c == 0 then Some(StUnknown)
    else if c == 1 then Some(StNew)
    else if c == 2 then Some(StPartiallyFilled)
    else if c == 3 then Some(StFilled)
    else if c == 5 then Some(StCanceled)
    else if c == 6 then Some(StPendingCancel)
    else if c == 8 then Some(StRejected)
    else if c == 9 then Some(StSuspended)
    else if c == 10 then Some(StPendingNew)
    else if c == 12 then Some(StExpired)
    else None
  }

  const OrderStatusTable: map<int, string> := map[
    0 := "unknown", 1 := "new", 2 := "partially filled", 3 := "filled",
    5 := "canceled", 6 := "pending cancel", 8 := "rejected",
    9 := "suspended (invalid)", 10 := "pending new", 12 := "expired"]

  lemma GmOrderStatusMatchesTable(c: int)
    ensures c in OrderStatusTable <==> GmOrderStatusFromCode(c).Some?
  {
  }

  lemma GmOrderStatusRoundTrip(s: GmOrderStatus)
    ensures GmOrderStatusFromCode(s.Code()) == Some(s)
  {
  }

  /** Within each table no two members share a code. */
  lemma CodesDistinct()
    ensures forall a: OrderBiz, b: OrderBiz :: a.Code() == b.Code() ==> a == b
    ensures forall a: GmOrderType, b: GmOrderType :: a.Code() == b.Code() ==> a == b
    ensures forall a: ExecType, b: ExecType :: a.Code() == b.Code() ==> a == b
    ensures forall a: GmOrderStatus, b: GmOrderStatus :: a.Code() == b.Code() ==> a == b
  {
    forall a: OrderBiz, b: OrderBiz | a.Code() == b.Code() ensures a == b {
      OrderBizRoundTrip(a);
      OrderBizRoundTrip(b);
    }
    forall a: GmOrderType, b: GmOrderType | a.Code() == b.Code() ensures a == b {
      GmOrderTypeRoundTrip(a);
      GmOrderTypeRoundTrip(b);
    }
    forall a: ExecType, b: ExecType | a.Code() == b.Code() ensures a == b {
      ExecTypeRoundTrip(a);
      ExecTypeRoundTrip(b);
    }
    forall a: GmOrderStatus, b: GmOrderStatus | a.Code() == b.Code() ensures a == b {
      GmOrderStatusRoundTrip(a);
      GmOrderStatusRoundTrip(b);
    }
  }
}
