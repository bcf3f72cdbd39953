# OKEX V3 gateway: order bookkeeping, id registry and contract roles

This project models the core of the vn.py gateway to OKEX's V3 exchange API
(`vnpy/trader/gateway/okexGateway/okexGateway.py`) and proves properties of
the model. It covers these parts:

- **The gateway object.** It owns the order counter, from which local ids are
  drawn as `str(loginTime + orderID)`. It also owns the trade counter, the id
  registry `localRemoteDict` (local id to exchange id) and the record table
  `orderDict`. Every REST and WebSocket client works on these shared dicts.
- **The three REST clients** (futures, swap and spot), modelled as one class
  parameterised by segment:
  - order placement, which pre-registers the local id as its own exchange id;
  - cancelling, which queues a cancel for an order that has no exchange id yet;
  - the placement acknowledgement, which binds the local id to the exchange id,
    files the record under both ids and replays a queued cancel;
  - the futures order poll.
- **The three WebSocket order-push handlers.** They create or update a record,
  turn the change in the cumulative filled quantity into a trade, and release
  both ids of an order that is fully traded or cancelled.
- **Fill-delta synthesis**, shared by the poll and the pushes. The record keeps
  the last cumulative quantity it saw, and a trade with the next trade number
  is published for every nonzero difference.
- **Futures contract-role derivation.** Listed ids are grouped by their
  seven-character prefix, and the dated contracts of each group are named
  `_quarter`, `_this_week` and `_next_week`. The names are then inverted into
  `contractReverseMap`.
- **The selection logic of the futures cancel-all and close-all operations.**
- **The order type and status tables.**
- **Request signing.** This covers the message the two signing profiles build
  from the method, the path, Python's `urlencode` query and `json.dumps` body.
  The keyed digest itself is kept symbolic.
- **The round-robin timer scheduler.**

The modules follow the source's structure:

- `Tables`: the lookup tables.
- `Signer`, `UrlQuery` and `Json`: signing.
- `Fills`: fill deltas.
- `Records`: the request, update and record values, and the pure effect of
  one update on a record.
- `Batch`: the bulk operations.
- `Contracts`: contract roles.
- `Scheduler`: the timer.
- `Okex`: the gateway and client classes, whose methods change the shared
  state in place.
- `Scenarios`: whole exchanges, from a fresh gateway.

A REST request the gateway would post is appended to its client's `outbox`.
The `onOrder` and `onTrade` events are appended to the gateway's
`orderEvents` and `trades`. Where Python raises (a `KeyError` from a table or
dict, the `TypeError` of joining `None`, a division by zero), the model makes
the same state changes up to that point, stops, and reports failure. There
are two exceptions, both listed under Findings: the price read of the
futures poll (line 816) and the exchange-id key of the futures push (line
1264). There the classes follow the corrected code, and the as-written
members named in those rows model the code as written.

Where the code's behaviour is easy to misread from its names or docstrings,
the model follows the code:

- Negative deltas go through. A cumulative quantity lower than the record's
  lowers the record and publishes a trade of negative volume (`Fills.Fill`).
- A rejected order keeps its ids. Only the fully traded and cancelled
  statuses release them (`Tables.ReleasingCodes`).
- Binding the same local id twice overwrites the earlier binding
  (`Okex.RestApi.OnSendOrder`).
- A cancel issued before the acknowledgement is sent at once against the
  local id. Order placement has already registered the local id as its own
  exchange id, so the cancel queue is not used (`Scenarios.CancelBeforeAck`).
- A futures group with fewer than three dated contracts raises and ends the
  naming loop (`Contracts.GroupFailsIffShort`). With more than three,
  `_next_week` goes to the first suffix left in listing order once the
  largest and then the smallest are removed (`Contracts.GroupShape`).
- Cancel-all's loop runs `N // 20 + 1` times over slices of 20, but it
  returns after the first request (see Findings).

## Model

| member | source | states |
|---|---|---|
| Tables.TypeCode | vnpy/trader/gateway/okexGateway/okexGateway.py:48-52 | typeMap is defined exactly on the long/short × open/close pairs, and every code is one of "1".."4" |
| Tables.TypeOf | vnpy/trader/gateway/okexGateway/okexGateway.py:53 | typeMapReverse is defined exactly on the codes "1".."4" |
| Tables.TypeDecodeEncode | vnpy/trader/gateway/okexGateway/okexGateway.py:48-53 | decoding an encoded (direction, offset) pair gives the pair back |
| Tables.TypeEncodeDecode | vnpy/trader/gateway/okexGateway/okexGateway.py:48-53 | encoding a decoded code gives the code back |
| Tables.TypeCodeInjective | vnpy/trader/gateway/okexGateway/okexGateway.py:48-52 | the four pairs get four different codes |
| Tables.StatusOf | vnpy/trader/gateway/okexGateway/okexGateway.py:34-45 | statusMapReverse is defined exactly on the five numeric and five word codes, and never yields the empty status |
| Tables.StatusFamilies | vnpy/trader/gateway/okexGateway/okexGateway.py:34-45 | the numeric and word codes name the same status position by position, the five codes of a family name five different statuses, and every exchange status has a code |
| Tables.ReleasingCodes | vnpy/trader/gateway/okexGateway/okexGateway.py:1317-1323 | exactly "2", "-1", "filled" and "cancelled" lead the push handlers to release the ids; a rejection does not |
| Signer.Sign | vnpy/trader/gateway/okexGateway/okexGateway.py:329-351 | the body becomes its JSON text; the OK-ACCESS-SIGN header signs timestamp + method + path(+query) + JSON body; method, path and params are unchanged |
| Signer.Sign2 | vnpy/trader/gateway/okexGateway/okexGateway.py:354-379 | a truthy body is encoded and signed; any other body is left unencoded and not signed |
| Signer.PathWithQueryIffParams | vnpy/trader/gateway/okexGateway/okexGateway.py:335-338 | the path gets a query suffix exactly when there are params |
| Signer.ProfilesAgree | vnpy/trader/gateway/okexGateway/okexGateway.py:329-379 | the two profiles sign the same message for a truthy body; otherwise `sign` signs the `sign2` message plus the body's JSON text |
| Signer.NoBodyMessages | vnpy/trader/gateway/okexGateway/okexGateway.py:329-379 | with no body, `sign` still appends "null" and `sign2` stops at the path |
| Signer.QueryReadsBack | vnpy/trader/gateway/okexGateway/okexGateway.py:335-338 | after the path and "?", the query reads back as the quoted params, in order |
| Signer.SignMessagePrintable | vnpy/trader/gateway/okexGateway/okexGateway.py:72-76 | the message handed to the digest is printable ASCII whenever timestamp, method, path and body strings are, so its UTF-8 bytes are its characters |
| Signer.LoginMessage | vnpy/trader/gateway/okexGateway/okexGateway.py:1065-1070 | the login message handed to the digest is printable ASCII whenever the timestamp is, so its UTF-8 bytes are its characters |
| Signer.LoginIsBareSign2 | vnpy/trader/gateway/okexGateway/okexGateway.py:1068 | the login message timestamp + 'GET' + '/users/self/verify' is exactly the `sign2` message of a bare GET of /users/self/verify |
| UrlQuery.QuotePlusIdentity | vnpy/trader/gateway/okexGateway/okexGateway.py:335-336 | quote_plus leaves a string of safe characters unchanged |
| UrlQuery.ParseUrlencode | vnpy/trader/gateway/okexGateway/okexGateway.py:335-336 | splitting an urlencoded list at "&" and "=" gives the quoted pairs in order |
| UrlQuery.SafeParamsRoundTrip | vnpy/trader/gateway/okexGateway/okexGateway.py:335-336 | pairs of safe characters come back exactly |
| Json.DumpsPrintable | vnpy/trader/gateway/okexGateway/okexGateway.py:333 | json.dumps with ensure_ascii produces printable ASCII for bodies whose float texts are printable |
| Fills.Fill | vnpy/trader/gateway/okexGateway/okexGateway.py:1288-1297 | the new traded volume is the snapshot's; a trade is emitted exactly when the difference is nonzero, with that volume, and the trade counter rises by one exactly then |
| Fills.EmittedSum | vnpy/trader/gateway/okexGateway/okexGateway.py:1288-1297 | over any sequence of snapshots the emitted volumes add up to the last snapshot minus the starting traded volume: each fill is counted once |
| Fills.FromZero | vnpy/trader/gateway/okexGateway/okexGateway.py:1288-1297 | from a new record, the emitted volumes add up to the last filled quantity |
| Fills.EmittedPositive | vnpy/trader/gateway/okexGateway/okexGateway.py:1288-1297 | when the cumulative quantity never goes down, every emitted trade has a positive volume |
| Fills.PollFillAsWritten | vnpy/trader/gateway/okexGateway/okexGateway.py:785-816 | the poll as written raises exactly on a nonzero difference when the response itself has no price_avg, after the traded volume is overwritten |
| Fills.PollLosesFill | vnpy/trader/gateway/okexGateway/okexGateway.py:785-816 | as written, a new fill publishes no trade, and a repeat poll of the same quantity publishes none either |
| Fills.PollFill | vnpy/trader/gateway/okexGateway/okexGateway.py:785-820 | the corrected poll never raises on the price and publishes exactly the Fill trade |
| Fills.PolledVolumesAddUp | vnpy/trader/gateway/okexGateway/okexGateway.py:785-820 | the corrected polls publish the synthesised volumes, which add up to the last polled quantity minus the starting traded volume |
| Scheduler.Tick | vnpy/trader/gateway/okexGateway/okexGateway.py:241-256 | a query runs exactly when the raised countdown passes the trigger; it runs the function at the index; the countdown resets and the index wraps |
| Scheduler.RoundRobin | vnpy/trader/gateway/okexGateway/okexGateway.py:228-256 | from a reset clock, k timer events run k / (trigger+1) queries (the countdown holds the remainder); the first is function 0 and each later one the next index, wrapping round |
| Scheduler.SingleFunction | vnpy/trader/gateway/okexGateway/okexGateway.py:230-231 | with queryInfo the only function, every query runs function 0 |
| Records.LocalId | vnpy/trader/gateway/okexGateway/okexGateway.py:186-187 | a local id is a non-empty string of decimal digits |
| Records.LocalIdsDistinct | vnpy/trader/gateway/okexGateway/okexGateway.py:186-187 | two counter values give two different local ids |
| Records.PlacementRequest | vnpy/trader/gateway/okexGateway/okexGateway.py:408-415 | the placement is a POST with no params whose body starts with the local id as client_oid and the instrument, with six fields for futures and spot and five for swap |
| Records.PlacementCarriesLocalId | vnpy/trader/gateway/okexGateway/okexGateway.py:1506-1541 | every segment's placement carries the local id as client_oid, posted to that segment's order path |
| Records.SideOf | vnpy/trader/gateway/okexGateway/okexGateway.py:3232-3235 | the spot push sets buy to long/open and sell to short/open, as typeMapReverse does for codes "1" and "2"; any other side leaves the pair |
| Records.PushedView | vnpy/trader/gateway/okexGateway/okexGateway.py:1286-1290 | after a push the traded volume is the snapshot's, this-traded is the difference, and the status is the decoded one; id, symbol, price and size are kept |
| Records.FailedPushView | vnpy/trader/gateway/okexGateway/okexGateway.py:1286-1290 | a push that raises keeps the record's id, symbol, traded volume and status |
| Records.PolledView | vnpy/trader/gateway/okexGateway/okexGateway.py:782-788 | after a poll the traded volume, this-traded, status, direction and offset follow the item |
| Records.FailedPollView | vnpy/trader/gateway/okexGateway/okexGateway.py:782-788 | a poll that raises on its status or type has already overwritten the traded volume |
| Records.PushFollowsFill | vnpy/trader/gateway/okexGateway/okexGateway.py:1288-1297 | a push that goes through consumes its fill exactly as Fill says |
| Records.FailedPushKeepsFill | vnpy/trader/gateway/okexGateway/okexGateway.py:1286-1297 | after a push that raised, the next push of the same quantity still yields the trade |
| Records.FailedPollLosesFill | vnpy/trader/gateway/okexGateway/okexGateway.py:782-800 | after a poll that raised on its codes, the next poll of the same quantity yields no trade |
| Records.FuturesPushIdAsWritten | vnpy/trader/gateway/okexGateway/okexGateway.py:1264 | the futures push as written finds an exchange id exactly when the item has the key 'orderid' |
| Records.PushExchangeId | vnpy/trader/gateway/okexGateway/okexGateway.py:1257-1261 | the exchange id is found exactly when the item has the key 'order_id', and is its value |
| Records.SamplePushRaises | vnpy/trader/gateway/okexGateway/okexGateway.py:1257-1264 | an item shaped like the sample makes the handler as written raise, while the corrected lookup yields its order_id |
| Batch.Pending | vnpy/trader/gateway/okexGateway/okexGateway.py:541-542 | exactly the ids listed with status '0' or '1' |
| Batch.Intersect | vnpy/trader/gateway/okexGateway/okexGateway.py:543-544 | the ids in both lists, each once |
| Batch.CandidatesExact | vnpy/trader/gateway/okexGateway/okexGateway.py:541-544 | an id is cancelled exactly when it is pending and, given a truthy caller list, on it |
| Batch.Chunk | vnpy/trader/gateway/okexGateway/okexGateway.py:545-546 | each batch slice holds at most 20 ids |
| Batch.CancelRequestsAsWritten | vnpy/trader/gateway/okexGateway/okexGateway.py:545-558 | as written, exactly one batch request goes out |
| Batch.CancelAsWrittenDropsIds | vnpy/trader/gateway/okexGateway/okexGateway.py:545-558 | with more than 20 distinct candidates, the 21st is in no request sent, although it is in the second slice |
| Batch.CancelRequestsCoverAll | vnpy/trader/gateway/okexGateway/okexGateway.py:545-546 | run to the end, the loop sends len // 20 + 1 requests whose slices put together are exactly the candidates, in order |
| Batch.CloseOrdersShape | vnpy/trader/gateway/okexGateway/okexGateway.py:609-644 | the long close (type '3') is sent exactly when long_avail_qty > 0 and the filter is None or long; likewise the short close (type '4'); nothing else, at most two |
| Batch.CloseHolding | vnpy/trader/gateway/okexGateway/okexGateway.py:628-644 | one pass of the loop sends CloseOrders for the holding, and the next pass reads no filter once an order was sent |
| Batch.OnCloseAll | vnpy/trader/gateway/okexGateway/okexGateway.py:600-644 | the loop over the holdings sends what CloseAllAsWritten says |
| Batch.ClosePlanRespectsFilter | vnpy/trader/gateway/okexGateway/okexGateway.py:628-644 | under the intended plan, every order sent closes a permitted side with something available, and every such side of every holding is closed |
| Batch.CloseAllAgreesWithoutFilter | vnpy/trader/gateway/okexGateway/okexGateway.py:600-644 | with no filter, the code as written and the intended plan agree |
| Batch.CloseAllLosesFilter | vnpy/trader/gateway/okexGateway/okexGateway.py:600-644 | with a long filter, the code as written also closes a later holding's short side |
| Contracts.Put | vnpy/trader/gateway/okexGateway/okexGateway.py:676-680 | a dict store keeps insertion order: a new key goes last, an existing one keeps its place |
| Contracts.BeforeBtg | vnpy/trader/gateway/okexGateway/okexGateway.py:666-668 | grouping stops at the first id containing "BTG": the grouped ids are a prefix of the listing free of "BTG" |
| Contracts.GroupIdsContents | vnpy/trader/gateway/okexGateway/okexGateway.py:666-673 | every grouped id's suffix is in its prefix's group, and groups hold nothing else |
| Contracts.GroupFailsIffShort | vnpy/trader/gateway/okexGateway/okexGateway.py:674-680 | a group gets through the naming loop exactly when it has at least three suffixes |
| Contracts.GroupShape | vnpy/trader/gateway/okexGateway/okexGateway.py:674-680 | a group with three or more suffixes gets through, and names its largest suffix quarter, its smallest this-week and the first suffix left after removing those two next-week; no other key changes |
| Contracts.ThreeSuffixRoles | vnpy/trader/gateway/okexGateway/okexGateway.py:674-680 | with three distinct suffixes lo < mid < hi, in any order, hi is quarter, lo this-week and mid next-week |
| Contracts.ExampleRoles | vnpy/trader/gateway/okexGateway/okexGateway.py:674-680 | suffixes 181228, 190329 and 190628 of BTC-USD become btc_this_week, btc_next_week and btc_quarter |
| Contracts.GroupIdsSeparated | vnpy/trader/gateway/okexGateway/okexGateway.py:666-680 | the ids built from two different groups' suffixes never coincide, so one group's naming cannot overwrite another's |
| Contracts.AssignGroupsRoles | vnpy/trader/gateway/okexGateway/okexGateway.py:674-680 | once the earlier groups got through, a group with three distinct suffixes lo < mid < hi has its quarter, this-week and next-week names after any number of later groups, including a later one that raises |
| Contracts.ListedGroupRoles | vnpy/trader/gateway/okexGateway/okexGateway.py:666-680 | for the grouping of the listed ids, which onQueryContract names, every such group the loop reaches keeps its three names in the final contractMap |
| Contracts.AssignGroupsStuck | vnpy/trader/gateway/okexGateway/okexGateway.py:674-680 | after a group raises, the later groups are not reached: contractMap stays as the failing group left it |
| Contracts.ReverseIntoInverse | vnpy/trader/gateway/okexGateway/okexGateway.py:682-687 | a complete pass maps every name back to an id carrying it, and covers every name |
| Contracts.ReverseIntoFails | vnpy/trader/gateway/okexGateway/okexGateway.py:682-687 | the pass raises exactly when some named id was never listed |
| Contracts.ReverseIsInverse | vnpy/trader/gateway/okexGateway/okexGateway.py:682-687 | when no two ids share a name, contractReverseMap is the exact inverse of contractMap |
| Okex.Gateway.constructor | vnpy/trader/gateway/okexGateway/okexGateway.py:83-108 | counters at 10000 and 0, empty dicts and logs, and one fresh client of each kind linked to this gateway |
| Okex.Gateway.Route | vnpy/trader/gateway/okexGateway/okexGateway.py:189-196 | a symbol goes to futures, swap or spot, tested in that order, or to no client |
| Okex.Gateway.SendOrder | vnpy/trader/gateway/okexGateway/okexGateway.py:183-197 | the counter rises by one; with a routed, accepted order the placement is posted by that client only, the local id is registered as its own exchange id and a fresh record is filed under it; an unknown symbol or a raising client changes nothing else |
| Okex.Gateway.CancelOrder | vnpy/trader/gateway/okexGateway/okexGateway.py:199-210 | a cancel reaches only the client of the symbol's segment, with that client's CancelOutcome |
| Okex.Gateway.SetQryEnabled | vnpy/trader/gateway/okexGateway/okexGateway.py:264-266 | sets the flag |
| Okex.Gateway.InitQuery | vnpy/trader/gateway/okexGateway/okexGateway.py:228-239 | with queries enabled, the clock is reset to count up to freq; otherwise nothing changes |
| Okex.Gateway.Query | vnpy/trader/gateway/okexGateway/okexGateway.py:241-256 | the clock moves exactly as Scheduler.Tick says, and a query is counted exactly when one runs |
| Okex.Gateway.Publish | vnpy/trader/gateway/okexGateway/okexGateway.py:795-820 | onOrder is published, and onTrade with the next trade number exactly when this-traded is nonzero; trades stay numbered 1, 2, ... |
| Okex.RestApi.Instrument | vnpy/trader/gateway/okexGateway/okexGateway.py:410 | the futures client names a symbol through contractReverseMap, defined exactly on its keys; the others use the symbol |
| Okex.RestApi.SendOrder | vnpy/trader/gateway/okexGateway/okexGateway.py:403-438 | succeeds exactly when typeMap and the instrument lookup do; then posts the placement, registers the local id as its own exchange id and files a fresh record with the request's fields; otherwise nothing changes |
| Okex.RestApi.CancelOrder | vnpy/trader/gateway/okexGateway/okexGateway.py:441-460 | with no truthy exchange id the cancel is queued and nothing is posted; otherwise exactly one cancel against that id is posted, unless naming the instrument raises |
| Okex.RestApi.OnSendOrder | vnpy/trader/gateway/okexGateway/okexGateway.py:845-854 | binds client_oid to order_id; files the local record under the exchange id as well; a queued cancel is removed and replayed once against the new binding; a missing local record raises after the binding |
| Okex.RestApi.OnQueryContract | vnpy/trader/gateway/okexGateway/okexGateway.py:647-692 | contractDict's keys grow by the new listed ids; contractMap is named group by group as AssignGroups says; contractReverseMap is filled as ReverseInto says, unless naming raised |
| Okex.RestApi.ListContracts | vnpy/trader/gateway/okexGateway/okexGateway.py:649-660 | contractDict's keys after the listing loop, in insertion order |
| Okex.RestApi.GroupListed | vnpy/trader/gateway/okexGateway/okexGateway.py:665-673 | the grouping loop builds GroupIds of the ids before the first "BTG" one |
| Okex.RestApi.AssignRoles | vnpy/trader/gateway/okexGateway/okexGateway.py:674-680 | contractMap after the naming loop, and whether it raised, are as AssignGroups says |
| Okex.RestApi.ReverseRoles | vnpy/trader/gateway/okexGateway/okexGateway.py:682-687 | the inversion loop fills contractReverseMap as ReverseInto says, stopping where contractDict[key] raises |
| Okex.RestApi.PollItem | vnpy/trader/gateway/okexGateway/okexGateway.py:763-820 | an unknown order with a known instrument gets a fresh record under a counter id, bound at once; the item goes through exactly when its status and type decode; then the record takes PolledView, is filed, and onOrder/onTrade follow Fill; a failure leaves the events and table alone and the record as FailedPollView |
| Okex.RestApi.ApplyPoll | vnpy/trader/gateway/okexGateway/okexGateway.py:782-788 | the field updates of one polled item, up to the lookup that raises |
| Okex.RestApi.OnQueryOrder | vnpy/trader/gateway/okexGateway/okexGateway.py:755-820 | the items are handled in order until one raises; one onOrder per item handled, at most one trade each, earlier events kept |
| Okex.WebsocketApi.NewSymbol | vnpy/trader/gateway/okexGateway/okexGateway.py:1268-1270 | the futures push names a new record through contractMap, defined exactly on its keys; swap and spot use the instrument |
| Okex.WebsocketApi.OnTradeItem | vnpy/trader/gateway/okexGateway/okexGateway.py:1264-1323 | the counter rises only for a named new record without client_oid; the push goes through exactly when PushAccepted; then onOrder/onTrade follow Fill, the local id is bound and the record filed, and a fully traded or cancelled order has both ids released with no other key touched; a failure changes no dict or log and leaves an existing record as FailedPushView |
| Okex.WebsocketApi.RecordFor | vnpy/trader/gateway/okexGateway/okexGateway.py:1264-1282 | the record under the exchange id, or a fresh one named and typed from the item; the counter moves after the symbol lookup and before the type lookup |
| Okex.WebsocketApi.ApplyPush | vnpy/trader/gateway/okexGateway/okexGateway.py:3232-3243 | the field updates of one push for any segment, up to the step that raises (spot division by zero, unknown status) |
| Okex.WebsocketApi.File | vnpy/trader/gateway/okexGateway/okexGateway.py:1292-1323 | binding, filing, publishing, then release of both ids for a finished order |
| Okex.WebsocketApi.OnTrade | vnpy/trader/gateway/okexGateway/okexGateway.py:2278-2347 | the items are handled in order until one raises; one onOrder per item handled, at most one trade each |
| Scenarios.PlaceAckFill | vnpy/trader/gateway/okexGateway/okexGateway.py:1916-1934 | place, acknowledge, push fully traded: one trade numbered 1 for the whole volume, and both ids released |
| Scenarios.CancelBeforeAck | vnpy/trader/gateway/okexGateway/okexGateway.py:1506-1563 | a cancel before the acknowledgement goes out at once against the local id and is not queued |
| Scenarios.PushBeforeAck | vnpy/trader/gateway/okexGateway/okexGateway.py:2278-2347 | a push that overtakes the acknowledgement makes a second record, so a repeated push of the same quantity counts the fill twice |
| Scenarios.FailedPushThenFill | vnpy/trader/gateway/okexGateway/okexGateway.py:2278-2347 | a push that raises on its status leaves the fill for the next push, which yields exactly one trade |

## Left out

- The keyed digest: HMAC-SHA256 and base64 in generateSignature are the symbolic term `Base64HmacSha256(secret, message)`. Only the message is modelled.
- Network I/O: addRequest is an append to the client's outbox, and responses are method arguments. The synchronous `requests.get/post` calls of cancelAll and closeAll, the WebSocket frames and zlib unpacking are not modelled.
- Time: timestamps, datetime parsing and formatting, and the wall-clock derivation of loginTime. loginTime is a constructor parameter.
- Floating point: prices and average prices are carried as their text. The spot average price is the symbolic quotient of filled_notional and filled_size, and spot float volumes are taken as integers.
- Plumbing outside the order and contract core: connect and its config file, the login frame apart from its signed message (Signer.LoginMessage), subscribe, ticks, depth, account and position handlers, history bars, logging and prints.
- The onContract events and the queryOrder, queryAccount and queryPosition requests that end onQueryContract, and the requests queryInfo makes when the scheduler runs it.
- The swap and spot onQueryOrder, onQueryContract, onCancelAll and onCloseAll, which are near copies of the futures ones. The cancelAll and closeAll requests themselves are also out; only the selection in their futures callbacks is modelled.
- Okex.Gateway.Publish: every onOrder event is recorded as a snapshot of the record. The pushes do publish `copy(order)` (lines 1292, 2316 and 3245), but the futures poll publishes the live record (line 795), which later polls and pushes go on changing; the model does not capture that aliasing.
- Concurrency between the REST poll thread and the WebSocket push thread: the model is a sequence of method calls.
- Okex.RestApi.AssignRoles: the naming loop over the groups is stated as a whole through Contracts.AssignGroups, which follows it one group at a time, rather than as an imperative loop of its own.
- Okex.WebsocketApi.OnTradeItem: the futures push reads the exchange id under the key 'orderid'; the model takes it from the update's exchange-id field like the other segments (see Findings).
- Okex.RestApi.PollItem: models the corrected price read of line 816, and so does Okex.RestApi.OnQueryOrder, which continues with the next item. As written, the KeyError there comes after onOrder, the orderDict store and the trade-counter bump, and it ends the loop without publishing the trade; only Fills.PollFillAsWritten and Fills.PollLosesFill model that.
- Common.Lower: folds the ASCII letters A-Z only, where Python's str.lower is Unicode-aware. It is applied to the first three characters of a futures instrument id, which the exchange writes in ASCII.
- Okex.RestApi.OnQueryOrder: its contract states only how the logs grow; what each item does is stated by Okex.RestApi.PollItem.
- Okex.WebsocketApi.OnTrade: as for OnQueryOrder, the per-item effect is stated by Okex.WebsocketApi.OnTradeItem.
- Okex.RestApi.PollItem: the source tests the response, not the item, for client_oid. The modelled response holds only 'result' and 'order_info', as the docstring shows, so a new record always takes a counter id.
- The text of VN_SEPARATOR: vtOrderID is the pair of gateway name and order id.
- Batch.Intersect: Python's set intersection has no defined order; the model lists the ids in the order of the exchange's listing.
- Batch.OnCloseAll: vnpy's Request class is not part of this model. Rebinding `request` is taken to leave an extra of None, the default its constructor is assumed to have.

## Findings

| source | as written | input that shows it | evidently intended | confidence | as-written member | corrected member |
|---|---|---|---|---|---|---|
| vnpy/trader/gateway/okexGateway/okexGateway.py:816 | the trade price is read as `data['price_avg']` from the response, which holds only 'result' and 'order_info'; the KeyError comes after the traded volume is overwritten and the trade counter is bumped | a polled item whose filled_qty differs from the record's traded volume | read the item's `d['price_avg']`, so every nonzero difference is published as a trade | not executed | Fills.PollFillAsWritten, Fills.PollLosesFill | Fills.PollFill, Fills.PolledVolumesAddUp, Okex.RestApi.PollItem |
| vnpy/trader/gateway/okexGateway/okexGateway.py:545-558 | the `return` sits inside the chunk loop, so only the first 20 candidate ids are cancelled | 21 distinct pending orders | send one batch request per slice of 20 | not executed | Batch.CancelRequestsAsWritten, Batch.CancelAsWrittenDropsIds | Batch.CancelRequests, Batch.CancelRequestsCoverAll |
| vnpy/trader/gateway/okexGateway/okexGateway.py:1264 | the futures push reads the exchange id as `data['orderid']`, while its sample item and every other handler use 'order_id'; the KeyError comes at the handler's first statement, and at lines 1293-1294 and 1320-1321 the same key is read again, so no push is ever applied | a push item shaped like the handler's sample | read `data['order_id']` | not executed | Records.FuturesPushIdAsWritten, Records.SamplePushRaises | Records.PushExchangeId, Okex.WebsocketApi.OnTradeItem |
| vnpy/trader/gateway/okexGateway/okexGateway.py:628-644 | the name `request` is rebound to the close order just sent, so the direction filter `request.extra` is lost after the first order | filter long, a first holding with long quantity, a second with only short quantity | every holding is judged under the caller's filter | not executed | Batch.OnCloseAll, Batch.CloseAllLosesFilter | Batch.ClosePlan, Batch.ClosePlanRespectsFilter |
