# Aratiri web client: a verified model of its client-side logic

Aratiri is a Bitcoin/Lightning wallet. Its web client keeps a JWT access
token and a refresh token in browser storage. It talks to the wallet API
through one request helper and listens for incoming payments on a
server-sent-event stream. This project models, in Dafny, the parts of the
client that make decisions, and proves what they promise:

- **The request client** (`api.dfy`, module `Api`):
  - header construction, the failure message and the choice of success body;
  - the refresh coordination. The first call answered 401 raises the
    "refreshing" flag and issues the one refresh request. Calls answered 401
    while the flag is up wait in a queue. That queue is settled, all resolved
    or all rejected, when the refresh ends.
- **The payment stream** (`sse.dfy`, module `Sse`):
  - the read loop that buffers chunks and cuts them at blank lines;
  - the line parser that turns a part into an event name and its data;
  - the handling of `payment_received` frames;
  - the reconnect rule.
- **The dashboard's own rules** (`dashboard.dfy`): unit cycling, the unit
  label, balance masking, the wholesale replacement of account and
  transactions on a data fetch, and logout.
- **The send-payment form** (`send.dfy`): a class whose fields are the
  form's state. Its handlers are decode, fee estimation, pay, back and the
  Enter dispatcher. The local LNURL amount-bounds check and the one request
  body per kind of decoded input are pure functions.
- **The notification list** (`notifier.dfy`), **relative times**
  (`time.dfy`), **transaction display** (`transactions.dfy`) and **currency
  selection** (`currency.dfy`).
- **Shared modules**:
  - `strings.dfy` holds the JavaScript string operations the client relies
    on: `trim`, `indexOf`, `split`/`join`, `includes`, `parseInt`,
    `String(n)` and `toUpperCase`;
  - `json.dfy` holds parsed JSON values with JavaScript truthiness,
    property access and `String(v)`;
  - `session.dfy` holds the two stored tokens;
  - `wrappers.dfy` holds `Option` and `Result`.

Asynchrony is modelled as events delivered in order:

- "a call's request was answered with this reply";
- "the refresh request was answered";
- "the leader's replay was answered". The leader is the call that started
  the refresh.
- "the stream delivered these chunks and ended like this";
- "the reconnect timer fired".

The network, the clocks, `JSON.parse` and the locale formatters are
parameters: a reply value, the elapsed milliseconds, a `parse` function, a
formatter function. Requests the client issues are logged in a field
(`fetches`, `requests`, `logoutRequests`). Events it dispatches are counted
(`logouts`). Timers it schedules are recorded (`timer`,
`paymentSentTimers`).

Some points where the code, not the design, decides the behaviour:

- Without a refresh token, the first 401 raises the refreshing flag and
  returns before the chain that would lower it. The flag then stays raised,
  and every later 401 only waits in the queue (`Api.Client.Call`).
- The leader's replay is issued before the queued calls' replays. The flag
  is lowered only when the leader's replay is answered. Calls answered 401
  in between stay queued, and a network error on that replay rejects them
  and logs out (`Api.Client.OnReplayReply`).
- The LNURL comment is always sent, even when empty. An amount that does
  not parse (NaN) passes the local bounds check and goes out as `null`
  (`Send.LnurlNaNNotRejected`).
- Neither the code nor the model invalidates an estimated fee when the
  amount changes. The amount input is simply disabled while a fee is shown.
- `currencies.includes` runs on whatever the currency request returned.
  On a string it is a substring test. On anything else that is not an
  array it throws, and the fallback list is put in place
  (`Currency.Adopt`).

## Model

| member | source | states |
|---|---|---|
| Strings.TrimIsMiddle | app/components/dashboard/Dashboard.tsx:182-183 | `trim` keeps exactly the middle of the text: whitespace only on both sides, none at either end of the result |
| Strings.TrimEmptyIff | app/components/dashboard/Dashboard.tsx:170 | a part trims to nothing iff it is whitespace only |
| Strings.LeadingSpaceIsMaximal | app/components/dashboard/Dashboard.tsx:182-183 | the leading whitespace run is maximal: all space, and followed by a non-space |
| Strings.TrailingSpaceIsMaximal | app/components/dashboard/Dashboard.tsx:182-183 | the same for the trailing run |
| Strings.Find | app/components/dashboard/Dashboard.tsx:179 | `indexOf` gives the first occurrence, and none means no occurrence at all |
| Strings.FindIsFirst | app/components/dashboard/Dashboard.tsx:179 | the first occurrence is what `indexOf` reports |
| Strings.ContainsIff | app/lib/api.ts:147 | `includes` holds iff the pattern occurs somewhere |
| Strings.SplitPartsFree | app/components/dashboard/Dashboard.tsx:165 | no part of a `split` contains the separator |
| Strings.JoinSplit | app/components/dashboard/Dashboard.tsx:165-167 | joining the parts of a `split` with the separator gives the text back |
| Strings.JoinAppend | app/components/dashboard/Dashboard.tsx:165-167 | joining two non-empty lists of parts puts one separator between them |
| Strings.NatText | app/components/dashboard/SendModal.tsx:140-142 | `String(n)` of a natural number is all decimal digits, with no leading zero |
| Strings.IntText | app/components/dashboard/Dashboard.tsx:146 | `String(n)` starts with '-' iff n is negative |
| Strings.LeadingDigits | app/components/dashboard/SendModal.tsx:134 | `parseInt` reads the longest run of digits of the radix |
| Strings.NatTextValue | app/components/dashboard/SendModal.tsx:134 | the digits of `String(n)` have value n |
| Strings.ParseIntOfText | app/components/dashboard/SendModal.tsx:134 | `parseInt` reads back `String(n)` followed by any non-digit, e.g. "12.5" reads as 12 |
| Strings.ParseIntRoundTrip | app/components/dashboard/SendModal.tsx:105 | `parseInt(String(n)) == n` |
| Strings.ToUpper | app/components/dashboard/Dashboard.tsx:113 | `toUpperCase` keeps the length and upper-cases each letter |
| Strings.ThousandthsText | app/components/dashboard/SendModal.tsx:140-142 | `n / 1000` of a multiple of 1000 prints as the whole quotient |
| Strings.ThousandthsFraction | app/components/dashboard/SendModal.tsx:140-142 | otherwise it prints as the whole part truncated toward zero and signed like `n`, a point, and one to three fractional digits with no trailing zero |
| Strings.ThousandthsExamples | app/components/dashboard/SendModal.tsx:140-142 | 1500 and 1 millisatoshis print as "1.5" and "0.001" |
| Strings.ThousandthsSignedZero | app/components/dashboard/SendModal.tsx:140-142 | -500 millisatoshis print as "-0.5": the sign stays when the whole part is 0 |
| Json.Lookup | app/lib/api.ts:122 | a key is missing iff no member has it; otherwise the value is that of the last member with the key |
| Json.Member | app/lib/api.ts:143 | reading a property throws iff the value is `null`, and only objects have properties |
| Api.RequestHeaders | app/lib/api.ts:77-83 | a body forces the JSON content type, a stored token adds the bearer header, and every other caller header is kept unchanged, with nothing else added |
| Api.FailureMessage | app/lib/api.ts:140-143 | the body's `message` when truthy; "HTTP Error: <status>" for JSON without one; the generic text for a non-JSON body; a TypeError for a `null` body |
| Api.FailureMessageNamesStatus | app/lib/api.ts:143 | the generic message names the status, which `parseInt` reads back |
| Api.SuccessValue | app/lib/api.ts:146-150 | the parsed body iff the content type mentions JSON, `{}` otherwise |
| Api.SettleEach | app/lib/api.ts:56-63 | `processQueue` settles each waiter once, in order, all rejected with the error or all resolved with the token |
| Api.ReplaysOfSettle | app/lib/api.ts:96-101 | resolved waiters replay their own endpoint with "Bearer <new token>", in queue order; rejected ones replay nothing |
| Api.Client.ProcessQueue | app/lib/api.ts:56-65 | the loop builds exactly the settlement of the old queue and leaves the queue empty |
| Api.Client.ForceLogout | app/lib/api.ts:67-71 | both tokens removed and one "force-logout" dispatched |
| Api.RouteOf | app/lib/api.ts:90-113 | a 401 waits iff a refresh is in flight; gives up iff none is and no refresh token is stored; starts the refresh iff none is and one is stored; other replies are answered directly |
| Api.Client.Call | app/lib/api.ts:73-113 | the call's request is logged with its headers; a waiting call is queued; a starting call sets the flag before the token check and logs the one refresh request; giving up removes the tokens, dispatches the logout and leaves the flag raised |
| Api.RefreshTokens | app/lib/api.ts:115-124 | the refresh succeeds iff its reply is a JSON object with a truthy `accessToken`; otherwise the chain's error |
| Api.Client.OnRefreshReply | app/lib/api.ts:120-137 | success stores both tokens, then resolves the queue with the new token, then replays the leader first; failure rejects every waiter, removes the tokens, rejects the leader and lowers the flag |
| Api.Client.OnReplayReply | app/lib/api.ts:128-137 | the leader resolves with the raw replay response and the flag is lowered; a network error rejects the waiters and logs out |
| Api.RefreshCountAppend | app/lib/api.ts:115-119 | refresh requests in a log add up over concatenation |
| Api.RefreshCountOfReplays | app/lib/api.ts:96-101 | replays are never refresh requests |
| Api.StartingCall | app/lib/api.ts:90-119 | the first 401 on an idle client with a refresh token issues the one refresh request and waits for it, the queue untouched |
| Api.WaitingCall | app/lib/api.ts:90-106 | a 401 while the refresh is in flight only queues the call: no further refresh request, chain and tokens as they were |
| Api.BurstOfThree | app/lib/api.ts:92-115 | three 401s on an idle client: one refresh request, two calls queued |
| Api.ReplaysBearer | app/lib/api.ts:96-128 | after a refresh the leader's replay and one replay per queued call go out, every one with the new bearer token |
| Api.RefreshAnswered | app/lib/api.ts:121-128 | the requests issued after the refresh reply are exactly the replays, one more than the queue held, all with the new bearer token and none a refresh |
| Api.UnauthorizedBurst | app/lib/api.ts:92-128 | any number n > 0 of concurrent 401s cost exactly one refresh request, after which exactly n requests are issued, each with the new bearer token |
| Sse.FieldOf | app/components/dashboard/Dashboard.tsx:179-183 | a line yields no field iff it has no colon |
| Sse.FieldOfLine | app/components/dashboard/Dashboard.tsx:179-183 | field and value are split at the first colon and both trimmed |
| Sse.ParseFrame | app/components/dashboard/Dashboard.tsx:174-190 | the line loop computes the frame of the part |
| Sse.EventIsLast | app/components/dashboard/Dashboard.tsx:175-186 | the event is "message" without an `event` line, and otherwise the value of the last one |
| Sse.DataIsConcatenation | app/components/dashboard/Dashboard.tsx:176-189 | the data is the `data` values concatenated in order, with no separator |
| Sse.FieldlessLineIgnored | app/components/dashboard/Dashboard.tsx:180 | a line without a field changes nothing, wherever it stands |
| Sse.ColonlessLineIgnored | app/components/dashboard/Dashboard.tsx:179-180 | dropping a colon-less line from a part does not change its frame |
| Sse.PaymentOf | app/components/dashboard/Dashboard.tsx:199-204 | reading the payload throws iff it is `null`; the amount is `amountSats`, then `amount`, then 0; the memo is `memo`, then `description`, then "No description" |
| Sse.FrameEffects | app/components/dashboard/Dashboard.tsx:194-221 | only a "payment_received" frame with non-empty data acts; data that does not parse, or parses to `null`, gives exactly the logged failure; any other payload gives one "Payment Received" notification and then one refetch |
| Sse.PaymentNotifies | app/components/dashboard/Dashboard.tsx:198-210 | for any payload but `null` the notification reads "<amount> sats - <memo>"; a payload that is not an object reads "0 sats - No description" |
| Sse.BlankPartIgnored | app/components/dashboard/Dashboard.tsx:170 | whitespace-only parts have no effect |
| Sse.EffectsOfAppend | app/components/dashboard/Dashboard.tsx:169-223 | the parts' effects follow in part order |
| Sse.HandlePart | app/components/dashboard/Dashboard.tsx:170-222 | handling one part gives the effects of its frame |
| Sse.HandleParts | app/components/dashboard/Dashboard.tsx:169-223 | the inner loop gives the effects of the parts in order |
| Sse.SplitAppend | app/components/dashboard/Dashboard.tsx:164-167 | splitting the buffer plus a chunk keeps the earlier complete parts and re-splits only the last one with the chunk |
| Sse.ChunkStep | app/components/dashboard/Dashboard.tsx:164-167 | one turn of the read loop keeps parts plus buffer equal to the split of all chunks read so far |
| Sse.ReadStream | app/components/dashboard/Dashboard.tsx:156-170 | after the loop, the complete parts plus the buffer are the split of everything read, and the effects are those of the complete parts in order |
| Sse.StreamLosesNothing | app/components/dashboard/Dashboard.tsx:164-167 | joining the parts and the buffer with "\n\n" gives back everything read, and none of them contains "\n\n" |
| Sse.RetryCases | app/components/dashboard/Dashboard.tsx:145-151 | a reconnect follows a non-abort failure, a bad status or a missing body, and a read error other than an abort; never an abort or a clean end |
| Sse.Subscription.constructor | app/components/dashboard/Dashboard.tsx:124-126 | a connection is attempted iff an access token is stored |
| Sse.Subscription.Ended | app/components/dashboard/Dashboard.tsx:225-234 | the delivered frames are handled, and exactly one reconnect is scheduled after 5000 ms iff the end was a non-abort error |
| Sse.Subscription.TimerFired | app/components/dashboard/Dashboard.tsx:228-233 | the reconnect runs iff the controller is not aborted |
| Sse.Subscription.Abort | app/components/dashboard/Dashboard.tsx:240-243 | unmounting aborts and changes nothing else |
| Dashboard.IndexOf | app/components/dashboard/Dashboard.tsx:103-104 | every unit is in the cycle, at its index |
| Dashboard.NextUnitCycles | app/components/dashboard/Dashboard.tsx:102-107 | sats→btc→fiat→sats; the toggle never stays put; three toggles are the identity |
| Dashboard.UnitLabel | app/components/dashboard/Dashboard.tsx:109-115 | "" when hidden; the upper-cased currency for fiat; the unit name otherwise |
| Dashboard.UnitLabelEmpty | app/components/dashboard/Dashboard.tsx:109-115 | the label is empty iff hidden, or fiat with an empty currency code |
| Dashboard.FormatBalance | app/components/dashboard/Dashboard.tsx:68-90 | masked iff not on the client, no account or hidden; "N/A" iff fiat without a rate; otherwise the balance in the selected unit |
| Dashboard.ShownBalanceFollowsUnit | app/components/dashboard/Dashboard.tsx:73-86 | a shown balance is in the selected unit |
| Dashboard.TransactionsOf | app/components/dashboard/Dashboard.tsx:61 | `transactions \|\| []` throws on a `null` reply and is never falsy |
| Dashboard.DashboardState.ToggleDisplayUnit | app/components/dashboard/Dashboard.tsx:102-107 | the unit moves to the next one and nothing else changes |
| Dashboard.DashboardState.FetchAllData | app/components/dashboard/Dashboard.tsx:46-66 | account and transactions replaced wholesale, never merged; a failure only sets "Failed to fetch data: " plus the message |
| Dashboard.DashboardState.Load | app/components/dashboard/Dashboard.tsx:92-100 | loading ends false; the account and transactions are as `fetchAllData` leaves them; the error is empty after a full success and the fetch message otherwise, including after a `null` transactions reply that follows the new account |
| Dashboard.DashboardState.Logout | app/components/dashboard/Dashboard.tsx:254-274 | the server is told iff a refresh token is stored; once the logout request settles, whatever it answers, both tokens are removed; token emptied; unauthenticated |
| Send.DecodeErrorShown | app/components/dashboard/SendModal.tsx:75-81 | a decoder error answer always leaves a non-empty message for the form to show, unless its `error` is an array, whose text can be empty (`[]`) |
| Send.EnterAction | app/components/dashboard/SendModal.tsx:46-55 | decode iff nothing is decoded; estimate iff an address without the fee shown; pay otherwise |
| Send.AmountMsat | app/components/dashboard/SendModal.tsx:134 | sats × 1000, NaN iff the amount does not parse |
| Send.PayRequest | app/components/dashboard/SendModal.tsx:127-164 | one request body per kind; an LNURL amount is rejected before any request iff it is below the minimum or above the maximum; other kinds fail with "Payment type not supported yet." |
| Send.LnurlBoundsInclusive | app/components/dashboard/SendModal.tsx:133-153 | an amount typed in sats goes out iff its millisatoshis lie between both bounds, inclusive |
| Send.LnurlNaNNotRejected | app/components/dashboard/SendModal.tsx:134-138 | an unparseable amount passes the check and is sent as `null` |
| Send.BoundsMessageInSats | app/components/dashboard/SendModal.tsx:139-143 | the bound message names the bounds in sats |
| Send.FirstPlainText | app/components/dashboard/SendModal.tsx:219 | `find` gives the first metadata entry whose first element is "text/plain" |
| Send.LnurlTitle | app/components/dashboard/SendModal.tsx:217-220 | `Str("LNURL Payment")` when no entry is "text/plain"; otherwise the first such entry's description itself, unconverted, when it is truthy, the default when it is falsy or missing |
| Send.LnurlTitleOfFirst | app/components/dashboard/SendModal.tsx:217-220 | the first "text/plain" entry alone decides the title, whatever later entries hold |
| Send.LnurlTitleFallsBack | app/components/dashboard/SendModal.tsx:217-220 | a non-empty string description is the title; an empty, `false` or missing one gives "LNURL Payment" even when a later entry has a description; `true` is the title as it is |
| Send.SendForm.constructor | app/components/dashboard/SendModal.tsx:19-29 | the form starts empty with no fee shown |
| Send.SendForm.HandleDecode | app/components/dashboard/SendModal.tsx:58-85 | empty input does nothing; otherwise everything decoded or typed is cleared before the request; a decoder error sets the error and leaves nothing decoded |
| Send.SendForm.HandleEstimateFee | app/components/dashboard/SendModal.tsx:93-116 | runs iff an address is decoded and an amount is typed; success sets the fee and shows it; failure only sets the error |
| Send.SendForm.HandlePay | app/components/dashboard/SendModal.tsx:118-177 | nothing without decoded data; a local rejection sends nothing; success reports the status, clears the input and the decoded value, and schedules `onPaymentSent` after 2000 ms; failure only sets the error |
| Send.SendForm.HandleBack | app/components/dashboard/SendModal.tsx:179-183 | only the decoded value, the error and the success message are cleared |
| Send.SendForm.AmountInputDisabled | app/components/dashboard/SendModal.tsx:285 | the on-chain amount input is locked exactly while a fee estimate is held |
| Notifier.Without | app/hooks/useNotifier.ts:21-23 | no notification with the id survives, and the list does not grow |
| Notifier.WithoutAppend | app/hooks/useNotifier.ts:22 | removal distributes over concatenation, so the survivors keep their order |
| Notifier.WithoutKeepsOthers | app/hooks/useNotifier.ts:22 | a notification survives iff it was there and has another id |
| Notifier.WithoutAbsent | app/hooks/useNotifier.ts:22 | removing an id nobody has changes nothing |
| Notifier.WithoutIdempotent | app/hooks/useNotifier.ts:22 | removing twice is removing once |
| Notifier.NotificationList.Add | app/hooks/useNotifier.ts:8-17 | exactly one notification appended, stamped with the current millisecond, the kind defaulting to success |
| Notifier.NotificationList.Remove | app/hooks/useNotifier.ts:21-23 | the list becomes the filter of the old one |
| Notifier.SameMillisecond | app/hooks/useNotifier.ts:11-22 | two adds in the same millisecond share an id, and one removal drops both |
| Time.Phrase | app/lib/time.ts:10 | the phrase is never empty, so the relative time is always used when there is one |
| Time.BucketThresholds | app/lib/time.ts:6-23 | seconds below 59 500 ms, minutes below 3 569 500 ms, hours below 84 569 500 ms, nothing from there on; seconds count below 60, minutes and hours from 1 |
| Time.NearlyAnHour | app/lib/time.ts:12-19 | 3 570 s read "1 hour ago", never "60 minutes ago" |
| Time.PluralOnlyAboveOne | app/lib/time.ts:9-20 | the plural "s" appears iff the count is above one |
| Time.FormatRelativeDate | app/lib/time.ts:32-39 | the date text when there is no relative time |
| Time.RelativeDateFallsBack | app/lib/time.ts:32-39 | the date is shown iff 84 569 500 ms or more have elapsed |
| Transactions.FiatText | app/components/dashboard/TransactionsTab.tsx:25-27 | the fiat text is empty iff the rate is missing or zero |
| Transactions.Properties | app/components/dashboard/TransactionsTab.tsx:14-59 | sign "+" iff credit; "Pending..." for PENDING; "Failed", struck through, with no fiat text for FAILED; green or red and the date otherwise; fiat text empty iff FAILED or the rate is missing or zero |
| Transactions.SignIgnoresStatus | app/components/dashboard/TransactionsTab.tsx:23-52 | the sign depends only on the type |
| Transactions.DepositIsCredit | app/components/dashboard/TransactionsTab.tsx:15 | any type mentioning DEPOSIT is a credit |
| Transactions.CreditIsCredit | app/components/dashboard/TransactionsTab.tsx:15 | any type mentioning CREDIT is a credit |
| Currency.Adopt | app/hooks/useCurrency.ts:16-19 | no stored preference is never adopted; from an array, adopted iff listed; a string reply is searched as text; any other reply throws |
| Currency.CurrencyState.constructor | app/hooks/useCurrency.ts:6-8 | the selection starts as "usd", with no currencies, loading |
| Currency.CurrencyState.Initialize | app/hooks/useCurrency.ts:10-27 | an array replaces the list; the preference is adopted only as `Adopt` says; a failed request or an error puts ["usd","pyg","ars","eur"] in place; loading ends false in every outcome |
| Currency.CurrencyState.Select | app/hooks/useCurrency.ts:31-34 | the choice is stored under "preferredCurrency" and selected |
| Currency.ChoiceSurvivesRestart | app/hooks/useCurrency.ts:16-34 | a chosen currency survives a restart iff the server still lists it, and otherwise the default "usd" remains |

## Left out

- Network, storage and events. `fetch`, `localStorage` and `window.dispatchEvent` are replaced by reply parameters, the `TokenStore` and `CurrencyState.preference` fields, and request logs and counters. The URL prefix, the query strings (`encodeURIComponent`, the date range of the transactions request) and request methods are not modelled.
- Concurrency. Interleaved promises become events delivered one after another. The relative order of two calls' replies beyond that, and `Promise.all`'s choice among several rejections, is not modelled: `FetchAllData` takes the settled outcome. A call that never settles is not modelled either: `DashboardState.Logout` takes the logout reply as given, while in the source a 401 that stays queued behind a refresh would leave the tokens in place.
- Timers. `setTimeout` delays are recorded as numbers (`ReconnectDelayMs`, `PaymentSentDelayMs`), and firing is a separate event. The toast's `AutoDismissMs` timer fires `NotificationList.Remove`, which is that event.
- Floating point and locale formatting. This covers `toLocaleString`, `toFixed(8)`, `Intl.NumberFormat` and `toLocaleDateString`; the model takes their texts as inputs or functions. JSON numbers are integers, and fiat rates are reals that are only compared with zero.
- Dates. `Date.now()` and `new Date(s)` are replaced by the elapsed milliseconds. An unparseable date (NaN elapsed time) is not modelled.
- `TextDecoder` is taken to deliver strings. `JSON.parse` is a parameter returning `None` on malformed text.
- The engine's error messages are stand-in constants (`TypeErrorText`, `SyntaxErrorText`, `NotCallableText`).
- Strings.ToUpper: upper-cases ASCII letters only, not the full Unicode case mapping.
- Strings.ParseInt: the numeral's value is unbounded, so precision loss beyond 2^53 is not modelled.
- Strings.IntText: `String(n)` switches to exponent notation from 1e21 on, while the model prints every digit, because numbers are unbounded integers here.
- Json.ToText: an object whose own `toString` and `valueOf` members are not functions makes `String(v)` throw; the model gives "[object Object]" for every object.
- Logging. `console.error` and `console.log` calls (for example app/components/dashboard/Dashboard.tsx:264) have no observable effect on the state and are not modelled.
- Rendering of the LNURL title. `Send.LnurlTitle` gives the value the heading receives; how React shows it (nothing for `true`, an array's items run together, a throw for an object) is not modelled.
- The `loading` flags of the send form and the decoding/paying spinners are not modelled. Dashboard and currency loading are.
- `Api.Options`: only the caller's headers and body are modelled; other `RequestInit` options pass through untouched.
- Request headers are keyed by lower-case name, which is how `Headers` treats the case-insensitive names.
- `Send.Decoded`: the decoder's reply is taken as already classified by its `type` ("lightning_invoice", "lnurl_params"/"alias", "bitcoin_address", anything else). LNURL bounds are integers. The parsed LNURL metadata is a list of lists of JSON values.
- `onScanSuccess` (camera scanning) and the rendering of the decoded content, apart from the title rule, are not modelled. `toggleBalanceVisibility` and the restoring of the stored visibility flag are not modelled; visibility is a parameter of `FormatBalance`.
- The `default` branch of `formatBalance` cannot be reached with the three display units, so it has no model.
- The invoice details view (`num_satoshis`, description) is rendering only and is not modelled.
