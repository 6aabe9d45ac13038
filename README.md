# Alpaca order validation and request building, in Dafny

This project models the Alpaca exchange adapter of a small brokerage integration
layer (`src/exchanges/alpaca.ts`). Its one piece of real logic is `checkOrder`. It
checks an order request before the request goes to the brokerage. It runs a fixed
chain of guards and throws the error of the first guard that fails. The adapter's
forwarders also guard and normalise their arguments before each remote call: the
order to send or cancel, the `symbols` list, the `timeframe`/`limit`/`start`/`end`
defaults and the URLs of the two direct REST reads. The model covers those steps too,
up to the request that would be sent.

Files and modules:

- `wrappers.dfy` (`Wrappers`): `Option` and `Result`.
- `js_values.dfy` (`JsValues`): the JavaScript values the code inspects. It defines
  truthiness (ECMAScript ToBoolean), `||`, string conversion (with `Array.prototype.join`),
  loose equality `==` against a word literal, and `String.prototype.split` on one
  character. It also proves the split/join round trip.
- `order_check.dfy` (`AlpacaOrders`): the order record, the nine errors with the
  source's messages, the guards as an ordered checklist, and `CheckOrder`, written in
  the source's own order of `if`s.
- `order_properties.dfy` (`OrderProperties`): which order gets which error, the
  precedence between guards, when an order is accepted, and worked examples.
- `requests.dfy` (`AlpacaRequests`): the forwarders' argument guards, defaults and
  requests.

Modelling choices:

- Every field of the order is an arbitrary `JsVal`, because the source takes `order: any`.
  Each presence test is JavaScript truthiness, so `0`, `""`, `NaN`, `null` and `false`
  all count as missing.
- An argument that is `null` or `undefined` is `None`. `order?.type` is then `undefined`,
  and the order is rejected with "Order type required".
- `order.type == "market"` is loose equality. A string compares its text. An array or
  object compares its string form, so `["market"]` is a market order while `[""]` is
  "not valid" rather than "required". A number or boolean never equals these literals.
- `CheckOrder` is a Dafny function. Repeating it on the same order therefore gives the
  same outcome, and it cannot change the order.
- Four behaviours of the code are easy to misread; the model follows the code:
  - A missing type and an unknown type get two different errors: "Order type required" and "Order type not valid".
  - A field counts as given only when it is truthy, so `0` and `""` count as missing.
  - Price fields the order type does not need are ignored, so an extra price is not
    rejected.
  - A notional order may be of any type. The code only checks its time in force,
    although a comment says notional orders must be market orders.

## Model

| member | source | states |
|---|---|---|
| `AlpacaOrders.CheckOrder` | src/exchanges/alpaca.ts:8-51 | the outcome is the error of the first failing guard in the source's order, and the order is accepted exactly when every guard holds |
| `AlpacaOrders.MessagesDistinct` | src/exchanges/alpaca.ts:9-49 | the nine thrown messages differ, so the message identifies the failed guard |
| `OrderProperties.RuleErrorInjective` | src/exchanges/alpaca.ts:9-49 | each guard throws its own error, so the error names the guard that failed |
| `OrderProperties.RejectedByFirstFailure` | src/exchanges/alpaca.ts:8-51 | rejected with guard k's error iff guard k fails and every earlier guard passes |
| `OrderProperties.TypeRequiredIff` | src/exchanges/alpaca.ts:9 | "Order type required" iff the order is null/undefined or its type is falsy |
| `OrderProperties.MissingOrderRejected` | src/exchanges/alpaca.ts:9 | a null or undefined order is rejected with "Order type required" |
| `OrderProperties.TypeNotValidIff` | src/exchanges/alpaca.ts:10-49 | "Order type not valid" iff the type is truthy and none of the five order types |
| `OrderProperties.UnknownTypeIgnoresOtherFields` | src/exchanges/alpaca.ts:10-50 | with an unknown type, the other fields do not affect the outcome |
| `OrderProperties.LimitPriceRequiredIff` | src/exchanges/alpaca.ts:14-18 | "Limit price required" iff a limit or stop_limit order has a falsy limit_price |
| `OrderProperties.StopPriceRequiredIff` | src/exchanges/alpaca.ts:14-23 | "Stop price required" iff a stop or stop_limit order has a falsy stop_price and passed the limit-price guard |
| `OrderProperties.StopLimitMissingBothPrices` | src/exchanges/alpaca.ts:14-23 | a stop_limit order missing both prices reports the limit price |
| `OrderProperties.TrailRequiredIff` | src/exchanges/alpaca.ts:24-28 | the trail error iff a trailing_stop order has neither trail_price nor trail_percent truthy |
| `OrderProperties.FieldsRequiredIff` | src/exchanges/alpaca.ts:14-32 | "Missing required fields" iff all price guards pass and symbol, side or time_in_force is falsy |
| `OrderProperties.PriceGuardsPrecedeRequiredFields` | src/exchanges/alpaca.ts:14-32 | an order failing a price guard is never reported as missing required fields |
| `OrderProperties.SizeRequiredIff` | src/exchanges/alpaca.ts:34-36 | "Notional or qty required" iff the earlier guards pass and both sizes are falsy |
| `OrderProperties.SizeConflictIff` | src/exchanges/alpaca.ts:37-40 | "not both" iff the earlier guards pass and both sizes are truthy |
| `OrderProperties.NotionalNotDayIff` | src/exchanges/alpaca.ts:41-47 | "Notional must be day order" iff the earlier guards pass, only notional is set and time_in_force is not "day" |
| `OrderProperties.AcceptedIff` | src/exchanges/alpaca.ts:8-51 | accepted iff known type, its prices, the required fields, exactly one of notional/qty, and day if notional |
| `OrderProperties.NotionalLimitOrderAccepted` | src/exchanges/alpaca.ts:41-47 | a notional limit day order is accepted: notional is not restricted to market orders |
| `OrderProperties.UnneededPricesIgnored` | src/exchanges/alpaca.ts:14-28 | a market order carrying limit and stop prices is accepted |
| `OrderProperties.ArrayTypeActsAsString` | src/exchanges/alpaca.ts:10-12 | a type given as a one-element array of a non-empty string is treated as that string |
| `OrderProperties.ArrayOfEmptyTypeNotValid` | src/exchanges/alpaca.ts:9-12 | `[""]` as type is "not valid" while `""` is "required" |
| `OrderProperties.ExampleLimitWithoutPrice` | src/exchanges/alpaca.ts:14-18 | a limit order without a limit price is rejected with "Limit price required" |
| `OrderProperties.ExampleLimitWithPrice` | src/exchanges/alpaca.ts:8-51 | the same order with a limit price is accepted |
| `OrderProperties.ExampleNotionalTimeInForce` | src/exchanges/alpaca.ts:41-47 | a notional gtc market order is rejected; as a day order it is accepted |
| `OrderProperties.ExampleZeroPriceIsMissing` | src/exchanges/alpaca.ts:19-23 | a stop price of 0 counts as missing |
| `JsValues.FalsyValues` | src/exchanges/alpaca.ts:30 | the values `!x` treats as missing are exactly undefined, null, false, 0, NaN and "" |
| `JsValues.Or` | src/exchanges/alpaca.ts:211 | `a \|\| b` is a when a is truthy and b otherwise; it is truthy iff either is |
| `JsValues.LooseEqualsWord` | src/exchanges/alpaca.ts:10-12 | a value loosely equal to a word is truthy and its string form is that word; a string is equal iff its text is |
| `JsValues.LooseEqualsWordMeaning` | src/exchanges/alpaca.ts:10-12 | a value is loosely equal to a word iff it is truthy and its string form is that word |
| `JsValues.SingletonArrayEquality` | src/exchanges/alpaca.ts:10-12 | `[s] == w` iff `s == w` |
| `JsValues.SplitJoin` | src/exchanges/alpaca.ts:210 | joining a non-empty list of comma-free strings with "," and splitting on ',' gives the list back |
| `AlpacaRequests.OrderToSend` | src/exchanges/alpaca.ts:58-74 | the order is sent, unmodified, iff the validator accepts it; otherwise the validator's error is thrown |
| `AlpacaRequests.OrderToCancel` | src/exchanges/alpaca.ts:84-95 | a falsy order id gives "Order id required"; any other value is passed through |
| `AlpacaRequests.SymbolList` | src/exchanges/alpaca.ts:245-246 | falsy symbols are refused; an array is kept; any other value becomes a one-element list |
| `AlpacaRequests.SymbolListIdempotent` | src/exchanges/alpaca.ts:161 | normalising a normalised list changes nothing |
| `AlpacaRequests.JoinedSymbols` | src/exchanges/alpaca.ts:207-210 | falsy symbols are refused; otherwise the normalised list joined with "," |
| `AlpacaRequests.JoinedSymbolsRoundTrip` | src/exchanges/alpaca.ts:207-210 | the joined symbols split on ',' give the list back when no symbol has a comma |
| `AlpacaRequests.SingleSymbolUnchanged` | src/exchanges/alpaca.ts:209-210 | a single string symbol is sent as it is, commas included |
| `AlpacaRequests.EmptySymbolArrayPassesGuard` | src/exchanges/alpaca.ts:245-248 | an empty array passes the guard and joins to "" |
| `AlpacaRequests.CandlesQuery` | src/exchanges/alpaca.ts:148-164 | falsy symbols refused; timeframe defaults to '1day'; symbols normalised; start, end, limit untouched; feed 'iex' |
| `AlpacaRequests.LatestCandlesQuery` | src/exchanges/alpaca.ts:180-192 | falsy symbols are refused; the latest-bars call gets an array as it is, or any other value as a one-element list |
| `AlpacaRequests.StockBarsParams` | src/exchanges/alpaca.ts:206-213 | falsy symbols refused; joined symbols; limit defaults to 1, timeframe to '1day', start to a year ago, end to null |
| `AlpacaRequests.StockBarsUrl` | src/exchanges/alpaca.ts:214-216 | the URL starts with the fixed base and the fixed parameters, and goes on with `&end=` and the end exactly when end is truthy |
| `AlpacaRequests.StockBarsUrlLayout` | src/exchanges/alpaca.ts:214-215 | in the URL, `&symbols=` follows the base, then the symbols, then `&limit=`, the limit and `&start=` |
| `AlpacaRequests.StockBarsUrlSymbols` | src/exchanges/alpaca.ts:207-215 | the URL's symbols segment is the joined symbol list and splits back into the symbols when none has a comma |
| `AlpacaRequests.StockBarsUrlDefaultLimit` | src/exchanges/alpaca.ts:211-215 | with no limit given, `&limit=1&start=` follows the symbols in the URL |
| `AlpacaRequests.StockBarsUrlEnd` | src/exchanges/alpaca.ts:213-216 | the URL goes on past its fixed parameters exactly when a truthy end was given |
| `AlpacaRequests.PricesUrl` | src/exchanges/alpaca.ts:244-248 | falsy symbols refused; the URL is the fixed base followed by the joined symbols |
| `AlpacaRequests.PricesUrlRoundTrip` | src/exchanges/alpaca.ts:244-248 | the symbols part of the prices URL splits back into the symbols |

## Left out

- The remote calls are not modelled, because their behaviour lives in the SDK and the network. The model stops at the request that would be sent. The calls left out are `createOrder`, `cancelOrder`, `getOrders`, `getPositions`, `getMultiBarsV2`, `getLatestBars` and both `fetch` calls. The returned JSON and the swallowed errors (`return e`) go with them.
- `getAlpacaOrders` and `getAlpacaPositions` are not modelled: they have no guard or normalisation, only a remote call.
- Credentials and the paper flag are not modelled: `key || process.env.ALPACA_KEY` and `secret || process.env.ALPACA_SECRET` read global environment state. The HTTP headers built from them are left out too.
- `StockBarsParams`: does not compute the default start. The source derives it from the clock (today less 365 days, in ISO form), so the caller passes it as `yearAgo`.
- The `for await` loops that copy SDK results into arrays, and `console.log`/`console.error`, are not modelled: they are asynchronous iteration over foreign results and logging.
- `src/index.ts`, `src/functions/price.ts`, `src/functions/trade.ts` and `src/functions/account.ts` are not modelled: they only re-export or forward.
- `JsValues.JsVal`: numbers are unbounded integers, not doubles. Fractional numbers, `-0`, integers beyond 2^53 and the infinities are not represented.
- `JsValues.IntToString`: prints every integer in plain decimal. JavaScript switches to exponent notation from 10^21 on (`String(1e21)` is "1e+21"). A `limit` or a numeric symbol of that size would reach the URLs (`${limit}`, `join(',')`) in a form the model does not give.
- The forwarders' arguments are not modelled as one object. Each forwarder destructures its `data` argument, so a `null` or `undefined` `data` throws a TypeError before any guard runs. `OrderToSend`, `OrderToCancel`, `CandlesQuery`, `LatestCandlesQuery`, `StockBarsParams` and `PricesUrl` take the fields directly, so that error path is not modelled.
- `JsValues.LooseEqualsWord`: an object is a plain object. Objects with their own `toString` or `valueOf` are not represented.
