/**
 * The order validator `checkOrder` of the Alpaca exchange adapter
 * (src/exchanges/alpaca.ts). It runs a fixed sequence of guards over the
 * order request and throws the error of the first guard that fails; an
 * order that passes every guard is accepted and may be sent.
 */
module AlpacaOrders {
  import opened Wrappers
  import opened JsValues

  /**
   * The fields of an order request that the validator reads. Every field is
   * an arbitrary JavaScript value: the request is not typed, and a field
   * that is missing reads as `undefined`.
   */
  datatype Order = Order(
    orderType: JsVal,     // `type`
    symbol: JsVal,
    side: JsVal,
    timeInForce: JsVal,   // `time_in_force`
    limitPrice: JsVal,    // `limit_price`
    stopPrice: JsVal,     // `stop_price`
    trailPrice: JsVal,    // `trail_price`
    trailPercent: JsVal,  // `trail_percent`
    qty: JsVal,
    notional: JsVal)

  /** The object whose fields are all `undefined`: what `order?.field` reads when `order` is `null` or `undefined`. */
  const Blank := Order(Undefined, Undefined, Undefined, Undefined, Undefined,
                       Undefined, Undefined, Undefined, Undefined, Undefined)

  /** The fields seen through optional chaining. */
  function Fields(order: Option<Order>): Order {
    if order.Some? then order.value else Blank
  }

  /** One error per guard of the validator. */
  datatype OrderError =
    | TypeRequired
    | TypeNotValid
    | LimitPriceRequired
    | StopPriceRequired
    | TrailRequired
    | FieldsRequired
    | SizeRequired
    | SizeConflict
    | NotionalNotDay

  /** The message of the `Error` the source throws for each guard. */
  function Message(e: OrderError): string {
    match e
    case TypeRequired => "Order type required"
    case TypeNotValid => "Order type not valid"
    case LimitPriceRequired => "Limit price required"
    case StopPriceRequired => "Stop price required"
    case TrailRequired => "Trail price or trail percent required"
    case FieldsRequired => "Missing required fields"
    case SizeRequired => "Notional or qty required"
    case SizeConflict => "Notional or qty required, not both"
    case NotionalNotDay => "Notional must be day order"
  }

  /** Different guards throw different messages, so the message tells which guard failed. */
  lemma MessagesDistinct(e1: OrderError, e2: OrderError)
    ensures Message(e1) == Message(e2) <==> e1 == e2
  {
  }

  /** The outcome of `checkOrder`: it returns normally, or throws. */
  datatype Outcome = Accepted | Rejected(error: OrderError)

  // The literals the validator compares `type` and `time_in_force` with.
  const MARKET := "market"
  const LIMIT := "limit"
  const STOP := "stop"
  const STOP_LIMIT := "stop_limit"
  const TRAILING_STOP := "trailing_stop"
  const DAY := "day"

  /** `v == w` for one of the literals above. */
  predicate Is(v: JsVal, w: string)
    requires w in {MARKET, LIMIT, STOP, STOP_LIMIT, TRAILING_STOP, DAY}
  {
    assert IsWord(w) by {
      assert forall i :: 0 <= i < |w| ==> 'a' <= w[i] <= 'z' || w[i] == '_';
    }
    LooseEqualsWord(v, w)
  }

  /** `type` is one of the five order types Alpaca accepts. */
  predicate KnownType(t: JsVal) {
    Is(t, MARKET) || Is(t, LIMIT) || Is(t, STOP) || Is(t, STOP_LIMIT) || Is(t, TRAILING_STOP)
  }

  /** Order types that need a `limit_price`. */
  predicate NeedsLimitPrice(t: JsVal) { Is(t, LIMIT) || Is(t, STOP_LIMIT) }

  /** Order types that need a `stop_price`. */
  predicate NeedsStopPrice(t: JsVal) { Is(t, STOP) || Is(t, STOP_LIMIT) }

  /** Order types that need a `trail_price` or a `trail_percent`. */
  predicate NeedsTrail(t: JsVal) { Is(t, TRAILING_STOP) }

  /** The guards of `checkOrder`, in the order it evaluates them. */
  datatype Rule =
    | TypePresent      // `type` is truthy
    | TypeKnown        // `type` is one of the five order types
    | LimitPriceGiven  // limit and stop_limit orders carry a truthy `limit_price`
    | StopPriceGiven   // stop and stop_limit orders carry a truthy `stop_price`
    | TrailGiven       // trailing_stop orders carry a truthy `trail_price` or `trail_percent`
    | FieldsGiven      // `symbol`, `side` and `time_in_force` are truthy
    | SizeGiven        // `notional` or `qty` is truthy
    | SizeExclusive    // not both of `notional` and `qty` are truthy
    | NotionalDay      // a truthy `notional` comes with `time_in_force == "day"`

  /** The guards in evaluation order. */
  const Checklist: seq<Rule> :=
    [TypePresent, TypeKnown, LimitPriceGiven, StopPriceGiven, TrailGiven,
     FieldsGiven, SizeGiven, SizeExclusive, NotionalDay]

  /** Whether the order satisfies guard `rule`. */
  predicate Holds(order: Option<Order>, rule: Rule) {
    var o := Fields(order);
    match rule
    case TypePresent => Truthy(o.orderType)
    case TypeKnown => KnownType(o.orderType)
    case LimitPriceGiven => NeedsLimitPrice(o.orderType) ==> Truthy(o.limitPrice)
    case StopPriceGiven => NeedsStopPrice(o.orderType) ==> Truthy(o.stopPrice)
    case TrailGiven => NeedsTrail(o.orderType) ==> Truthy(o.trailPrice) || Truthy(o.trailPercent)
    case FieldsGiven => Truthy(o.symbol) && Truthy(o.side) && Truthy(o.timeInForce)
    case SizeGiven => Truthy(o.notional) || Truthy(o.qty)
    case SizeExclusive => !(Truthy(o.notional) && Truthy(o.qty))
    case NotionalDay => Truthy(o.notional) ==> Is(o.timeInForce, DAY)
  }

  /** The error thrown when guard `rule` fails. */
  function RuleError(rule: Rule): OrderError {
    match rule
    case TypePresent => TypeRequired
    case TypeKnown => TypeNotValid
    case LimitPriceGiven => LimitPriceRequired
    case StopPriceGiven => StopPriceRequired
    case TrailGiven => TrailRequired
    case FieldsGiven => FieldsRequired
    case SizeGiven => SizeRequired
    case SizeExclusive => SizeConflict
    case NotionalDay => NotionalNotDay
  }

  /** The position of the first guard from `from` on that the order fails, or `|rules|` if none fails. */
  function FirstFailing(order: Option<Order>, rules: seq<Rule>, from: nat): (i: nat)
    requires from <= |rules|
    ensures from <= i <= |rules|
    ensures forall j :: from <= j < i ==> Holds(order, rules[j])
    ensures i < |rules| ==> !Holds(order, rules[i])
    decreases |rules| - from
  {
    if from == |rules| then from
    else if !Holds(order, rules[from]) then from
    else FirstFailing(order, rules, from + 1)
  }

  /** What a run of the guards `rules` reports: the error of the first failing guard. */
  function RunChecklist(order: Option<Order>, rules: seq<Rule>): Outcome {
    var i := FirstFailing(order, rules, 0);
    if i == |rules| then Accepted else Rejected(RuleError(rules[i]))
  }

  /**
   * `checkOrder(order)`. `None` stands for a `null` or `undefined` argument,
   * for which `order?.type` is `undefined`. The result is the outcome of the
   * guards run in order, first failure wins, and the order is accepted
   * exactly when it satisfies every guard.
   */
  function CheckOrder(order: Option<Order>): (r: Outcome)
    ensures r == RunChecklist(order, Checklist)
    ensures r == Accepted <==> forall k :: 0 <= k < |Checklist| ==> Holds(order, Checklist[k])
  {
    if order.None? || !Truthy(order.value.orderType) then Rejected(TypeRequired)
    else
      var o := order.value;
      if Is(o.orderType, MARKET) || Is(o.orderType, LIMIT) || Is(o.orderType, STOP)
         || Is(o.orderType, STOP_LIMIT) || Is(o.orderType, TRAILING_STOP)
      then
        if (Is(o.orderType, LIMIT) || Is(o.orderType, STOP_LIMIT)) && !Truthy(o.limitPrice) then
          Rejected(LimitPriceRequired)
        else if (Is(o.orderType, STOP) || Is(o.orderType, STOP_LIMIT)) && !Truthy(o.stopPrice) then
          Rejected(StopPriceRequired)
        else if Is(o.orderType, TRAILING_STOP) && !Truthy(o.trailPrice) && !Truthy(o.trailPercent) then
          Rejected(TrailRequired)
        else if !Truthy(o.symbol) || !Truthy(o.side) || !Truthy(o.timeInForce) then
          Rejected(FieldsRequired)
        else if !Truthy(o.notional) && !Truthy(o.qty) then
          Rejected(SizeRequired)
        else if Truthy(o.notional) && Truthy(o.qty) then
          Rejected(SizeConflict)
        else if Truthy(o.notional) && !Is(o.timeInForce, DAY) then
          Rejected(NotionalNotDay)
        else
          Accepted
      else
        Rejected(TypeNotValid)
  }
}
