/**
 * What `checkOrder` promises, stated about the model in AlpacaOrders: which
 * error each malformed order gets, which guard takes precedence over which,
 * and when an order is accepted.
 */
module OrderProperties {
  import opened Wrappers
  import opened JsValues
  import opened AlpacaOrders

  /** The order satisfies the first `n` guards of the checklist. */
  predicate PassesFirst(order: Option<Order>, n: nat)
    requires n <= |Checklist|
  {
    forall j :: 0 <= j < n ==> Holds(order, Checklist[j])
  }

  /** Each guard has its own error. */
  lemma RuleErrorInjective(a: Rule, b: Rule)
    ensures RuleError(a) == RuleError(b) ==> a == b
  {
  }

  /**
   * First failure wins: the order is rejected with the error of guard `k`
   * exactly when it fails guard `k` and passes every guard before it.
   */
  lemma {:induction false} RejectedByFirstFailure(order: Option<Order>, k: nat)
    requires k < |Checklist|
    ensures CheckOrder(order) == Rejected(RuleError(Checklist[k]))
            <==> !Holds(order, Checklist[k]) && PassesFirst(order, k)
  {
    var i := FirstFailing(order, Checklist, 0);
    if !Holds(order, Checklist[k]) && PassesFirst(order, k) {
      assert i == k;
    }
    if i < |Checklist| && RuleError(Checklist[i]) == RuleError(Checklist[k]) {
      RuleErrorInjective(Checklist[i], Checklist[k]);
      assert Checklist[i] == Checklist[k];
      assert i == k;
    }
  }

  /** A missing (`null`, `undefined`) order or a falsy `type` is rejected with "Order type required", and nothing else is. */
  lemma TypeRequiredIff(order: Option<Order>)
    ensures CheckOrder(order) == Rejected(TypeRequired)
            <==> order.None? || !Truthy(order.value.orderType)
  {
    RejectedByFirstFailure(order, 0);
  }

  /** A truthy `type` outside the five order types is rejected with "Order type not valid", and nothing else is. */
  lemma TypeNotValidIff(o: Order)
    ensures CheckOrder(Some(o)) == Rejected(TypeNotValid)
            <==> Truthy(o.orderType) && !KnownType(o.orderType)
  {
    RejectedByFirstFailure(Some(o), 1);
  }

  /** With an unknown `type`, no other field is looked at. */
  lemma UnknownTypeIgnoresOtherFields(o1: Order, o2: Order)
    requires Truthy(o1.orderType) && !KnownType(o1.orderType)
    requires o2.orderType == o1.orderType
    ensures CheckOrder(Some(o1)) == CheckOrder(Some(o2)) == Rejected(TypeNotValid)
  {
    TypeNotValidIff(o1);
    TypeNotValidIff(o2);
  }

  /** A limit or stop_limit order with a falsy `limit_price` is rejected with "Limit price required", and nothing else is. */
  lemma LimitPriceRequiredIff(o: Order)
    ensures CheckOrder(Some(o)) == Rejected(LimitPriceRequired)
            <==> NeedsLimitPrice(o.orderType) && !Truthy(o.limitPrice)
  {
    RejectedByFirstFailure(Some(o), 2);
  }

  /**
   * A stop or stop_limit order with a falsy `stop_price` is rejected with
   * "Stop price required" unless the limit-price guard fired first, and
   * nothing else is.
   */
  lemma StopPriceRequiredIff(o: Order)
    ensures CheckOrder(Some(o)) == Rejected(StopPriceRequired)
            <==> && NeedsStopPrice(o.orderType) && !Truthy(o.stopPrice)
                 && (NeedsLimitPrice(o.orderType) ==> Truthy(o.limitPrice))
  {
    RejectedByFirstFailure(Some(o), 3);
  }

  /** A stop_limit order missing both prices reports the limit price. */
  lemma StopLimitMissingBothPrices(o: Order)
    requires Is(o.orderType, STOP_LIMIT)
    requires !Truthy(o.limitPrice) && !Truthy(o.stopPrice)
    ensures CheckOrder(Some(o)) == Rejected(LimitPriceRequired)
  {
    LimitPriceRequiredIff(o);
  }

  /**
   * A trailing_stop order is rejected with "Trail price or trail percent
   * required" exactly when both `trail_price` and `trail_percent` are falsy,
   * and no other order gets that error.
   */
  lemma TrailRequiredIff(o: Order)
    ensures CheckOrder(Some(o)) == Rejected(TrailRequired)
            <==> NeedsTrail(o.orderType) && !Truthy(o.trailPrice) && !Truthy(o.trailPercent)
  {
    RejectedByFirstFailure(Some(o), 4);
  }

  /** The type-specific price guards, all passed. */
  predicate PriceChecksPass(o: Order) {
    && Truthy(o.orderType) && KnownType(o.orderType)
    && (NeedsLimitPrice(o.orderType) ==> Truthy(o.limitPrice))
    && (NeedsStopPrice(o.orderType) ==> Truthy(o.stopPrice))
    && (NeedsTrail(o.orderType) ==> Truthy(o.trailPrice) || Truthy(o.trailPercent))
  }

  /**
   * A falsy `symbol`, `side` or `time_in_force` is reported as "Missing
   * required fields" only once every price guard has passed.
   */
  lemma FieldsRequiredIff(o: Order)
    ensures CheckOrder(Some(o)) == Rejected(FieldsRequired)
            <==> PriceChecksPass(o) && !(Truthy(o.symbol) && Truthy(o.side) && Truthy(o.timeInForce))
  {
    RejectedByFirstFailure(Some(o), 5);
  }

  /** A missing price is reported ahead of missing required fields. */
  lemma PriceGuardsPrecedeRequiredFields(o: Order)
    requires !PriceChecksPass(o)
    ensures CheckOrder(Some(o)) != Rejected(FieldsRequired)
  {
    FieldsRequiredIff(o);
  }

  /** The guards an order passes before its sizing is looked at. */
  predicate FieldChecksPass(o: Order) {
    PriceChecksPass(o) && Truthy(o.symbol) && Truthy(o.side) && Truthy(o.timeInForce)
  }

  /** Both `notional` and `qty` falsy gives "Notional or qty required". */
  lemma SizeRequiredIff(o: Order)
    ensures CheckOrder(Some(o)) == Rejected(SizeRequired)
            <==> FieldChecksPass(o) && !Truthy(o.notional) && !Truthy(o.qty)
  {
    RejectedByFirstFailure(Some(o), 6);
  }

  /** Both `notional` and `qty` truthy gives "Notional or qty required, not both". */
  lemma SizeConflictIff(o: Order)
    ensures CheckOrder(Some(o)) == Rejected(SizeConflict)
            <==> FieldChecksPass(o) && Truthy(o.notional) && Truthy(o.qty)
  {
    RejectedByFirstFailure(Some(o), 7);
  }

  /** A notional order whose `time_in_force` is not "day" gives "Notional must be day order". */
  lemma NotionalNotDayIff(o: Order)
    ensures CheckOrder(Some(o)) == Rejected(NotionalNotDay)
            <==> FieldChecksPass(o) && Truthy(o.notional) && !Truthy(o.qty) && !Is(o.timeInForce, DAY)
  {
    RejectedByFirstFailure(Some(o), 8);
  }

  /**
   * `checkOrder` returns without throwing exactly when the order is well
   * formed: a known type with the prices that type needs, the three
   * required fields, exactly one of `notional` and `qty`, and a day order
   * if it is notional.
   */
  lemma AcceptedIff(o: Order)
    ensures CheckOrder(Some(o)) == Accepted
            <==> && FieldChecksPass(o)
                 && (Truthy(o.notional) != Truthy(o.qty))
                 && (Truthy(o.notional) ==> Is(o.timeInForce, DAY))
  {
    assert PassesFirst(Some(o), |Checklist|) <==> forall k :: 0 <= k < |Checklist| ==> Holds(Some(o), Checklist[k]);
  }

  /**
   * Price fields that the order type does not need are not looked at: a
   * market order that also carries a limit and a stop price is accepted.
   */
  lemma UnneededPricesIgnored()
    ensures CheckOrder(Some(Order(Str("market"), Str("AAPL"), Str("buy"), Str("gtc"), Num(100),
                                  Num(90), Num(5), Undefined, Num(1), Undefined))) == Accepted
  {
  }

  /** A missing order is never accepted. */
  lemma MissingOrderRejected()
    ensures CheckOrder(None) == Rejected(TypeRequired)
  {
  }

  /**
   * The code does not restrict notional orders to market orders, although
   * its comment says so: a notional limit day order is accepted.
   */
  lemma NotionalLimitOrderAccepted()
    ensures CheckOrder(Some(Order(Str("limit"), Str("AAPL"), Str("buy"), Str("day"), Num(100),
                                  Undefined, Undefined, Undefined, Undefined, Num(50)))) == Accepted
  {
  }

  /** The loose equality of a one-element string array with one of the validator's literals. */
  lemma SingletonArrayIs(s: string, w: string)
    requires w in {MARKET, LIMIT, STOP, STOP_LIMIT, TRAILING_STOP, DAY}
    ensures Is(Arr([Str(s)]), w) == Is(Str(s), w)
  {
    assert IsWord(w) by {
      assert forall i :: 0 <= i < |w| ==> 'a' <= w[i] <= 'z' || w[i] == '_';
    }
    SingletonArrayEquality(s, w);
  }

  /**
   * The type comparisons are loose equalities, so a type given as a
   * one-element array of a non-empty string is treated as that string.
   */
  lemma ArrayTypeActsAsString(o: Order, s: string)
    requires s != ""
    ensures CheckOrder(Some(o.(orderType := Arr([Str(s)])))) == CheckOrder(Some(o.(orderType := Str(s))))
  {
    SingletonArrayIs(s, MARKET);
    SingletonArrayIs(s, LIMIT);
    SingletonArrayIs(s, STOP);
    SingletonArrayIs(s, STOP_LIMIT);
    SingletonArrayIs(s, TRAILING_STOP);
  }

  /** An array is truthy even when its string form is empty: `[""]` is not "required" but "not valid". */
  lemma ArrayOfEmptyTypeNotValid(o: Order)
    ensures CheckOrder(Some(o.(orderType := Arr([Str("")])))) == Rejected(TypeNotValid)
    ensures CheckOrder(Some(o.(orderType := Str("")))) == Rejected(TypeRequired)
  {
    SingletonArrayIs("", MARKET);
    SingletonArrayIs("", LIMIT);
    SingletonArrayIs("", STOP);
    SingletonArrayIs("", STOP_LIMIT);
    SingletonArrayIs("", TRAILING_STOP);
  }

  /** A limit order without a limit price. */
  lemma ExampleLimitWithoutPrice()
    ensures CheckOrder(Some(Order(Str("limit"), Str("AAPL"), Str("buy"), Str("day"), Undefined,
                                  Undefined, Undefined, Undefined, Num(1), Undefined)))
            == Rejected(LimitPriceRequired)
  {
  }

  /** The same order with a limit price is accepted. */
  lemma ExampleLimitWithPrice()
    ensures CheckOrder(Some(Order(Str("limit"), Str("AAPL"), Str("buy"), Str("day"), Num(100),
                                  Undefined, Undefined, Undefined, Num(1), Undefined)))
            == Accepted
  {
  }

  /** A notional good-till-cancelled market order is rejected; as a day order it is accepted. */
  lemma ExampleNotionalTimeInForce()
    ensures CheckOrder(Some(Order(Str("market"), Str("AAPL"), Str("buy"), Str("gtc"), Undefined,
                                  Undefined, Undefined, Undefined, Undefined, Num(100))))
            == Rejected(NotionalNotDay)
    ensures CheckOrder(Some(Order(Str("market"), Str("AAPL"), Str("buy"), Str("day"), Undefined,
                                  Undefined, Undefined, Undefined, Undefined, Num(100))))
            == Accepted
  {
  }

  /** A price of 0 counts as missing. */
  lemma ExampleZeroPriceIsMissing()
    ensures CheckOrder(Some(Order(Str("stop"), Str("AAPL"), Str("sell"), Str("day"), Undefined,
                                  Num(0), Undefined, Undefined, Num(1), Undefined)))
            == Rejected(StopPriceRequired)
  {
  }
}
