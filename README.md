# BTCPay storefront: a Dafny model

This project models the logic inside a small Next.js storefront that creates and shows
Bitcoin invoices through the BTCPay Server Greenfield REST API. Everything that talks to
the outside world (`fetch`, `response.json()`, `process.env`, timers, toasts, the router)
is a parameter or an output record. What remains is modelled branch for branch, within
the limits listed under "## Left out":

- **Server-URL splitting** (`getBTCPayServerInfo`, module `BtcpayHelpers`). It uses a
  faithful model of JavaScript's `split` on a non-empty separator, `includes` and
  `indexOf` (module `Text`), with a proved `split`/`join` round trip.
- **The two API clients.**
  - lib/btcpay-api.ts (module `BtcpayApi`): a configuration guard, request building,
    normalisation of the server's invoice record into the local `Invoice` shape, and
    classification of errors into messages.
  - lib/btcpay.ts (module `Btcpay`): requests addressed through the split server URL,
    `"<operation>: <status> <body>"` failure messages, and `checkPaymentStatus`.
- **The invoice page's polling** (components/invoice-details.tsx, module `InvoiceDetails`).
  - The pure functions `Mount`, `Effect`, `StatusChangedSpec`, `TickSpec`, `Unmounted`
    and `Run` specify it, with its invariant `Live`.
  - The class `InvoicePoller` has fields `invoice`, `isPolling`, `intervalActive` and
    `toasts`. Each method is proved to move the state exactly as the corresponding
    function says.
- **The status classifiers.** The polling sets, `getStatusColor`/`getStatusIcon`, the
  list's `StatusBadge` and `checkPaymentStatus` are each modelled where they are written.
  Module `StatusVocabularies` proves where they agree and where they do not.
- **The invoice list** (module `InvoicesList`): its loading/error/list state as a class,
  and the render precedence as a function.
- **The payment form** (module `PaymentForm`): its fields, the amount check, the default
  description and the loading flag, as a class.
- **The two API routes** (modules `CreateInvoiceRoute`, `ConnectionRoute`). Each is split
  into the decision taken before the outbound call (answer now, or send this request)
  and the reply chosen once that call settles.

Network results enter as `Fetched<T> = Result<Response<T>, Thrown>`.

- `Failure` is a rejected `fetch`.
- A `Response` has a status, the text `response.text()` would give, and a body.
- The body is either `Json(record, message)` or `NotJson(syntaxError)`.
  - `Json` is the parsed object seen through the two views the code reads: the record
    on a 2xx answer, and `.message` on a failed one.
  - `NotJson` means `response.json()` rejects.

Behaviours of the code worth noting:

- A fetched status that is in neither the pollable set nor the stop set is not treated
  as terminal. The effect's cleanup clears the interval, and nothing resets `isPolling`
  (`InvoiceDetails.UnknownStatusLeavesPollingFlag`).
- Amount validation lives in the payment form and in the create-invoice route, not in
  the API client. The route only rejects falsy values, so negative amounts pass
  (`CreateInvoiceRoute.NegativeAmountForwarded`).
- The poller keeps no fetch sequence numbers, and nothing stops a later tick from
  starting while an earlier fetch is still pending.
- The status vocabularies are not unified, so `"Processing"` is paid for
  `checkPaymentStatus` only (`StatusVocabularies.ProcessingPaidOnlyByCheck`).

## Model

| member | source | states |
|---|---|---|
| `Values.OrElse` | lib/btcpay-helpers.ts:9 | the string when it is defined and non-empty, the fallback otherwise (JavaScript truthiness) |
| `Values.MessageOr` | components/payment-form.tsx:62 | an `Error`'s message, or the fallback for any other thrown value |
| `Text.FirstIndex` | lib/btcpay-helpers.ts:12 | `indexOf`: an occurrence at the result and none earlier; `None` exactly when the text does not contain the pattern (`includes`) |
| `Text.Split` | lib/btcpay-helpers.ts:13-14 | `split` gives at least one piece, and exactly one when the separator does not occur |
| `Text.SplitJoin` | lib/btcpay-helpers.ts:13 | joining the pieces of a split with the same separator gives back the text |
| `Text.SplitPiecesClean` | lib/btcpay-helpers.ts:13-14 | no piece of a split contains the separator |
| `Text.FirstPieceFirstSegment` | lib/btcpay-helpers.ts:13-14 | for a separator starting with `/`, the first `/`-segment of the first piece is the text before the first `/` |
| `Text.SegmentAfterOccurrenceIsPrefix` | lib/btcpay-helpers.ts:13-14 | text before an occurrence, the occurrence and the next `/`-segment start the text |
| `Text.Lower` | components/invoice-details.tsx:25 | `toLowerCase` keeps the length and lower-cases each ASCII capital |
| `Text.LowerIdempotent` | components/invoices-list.tsx:99 | lower-casing twice equals lower-casing once |
| `Text.NatToString` | lib/btcpay.ts:25 | the decimal text of a status code is non-empty and made of digits |
| `Text.NatToStringRoundTrip` | lib/btcpay.ts:25 | the decimal text of a number reads back as that number |
| `Http.ReadJson` | lib/btcpay.ts:28 | `response.json()` resolves with the record exactly when the body is JSON, and otherwise rejects with the syntax error |
| `BtcpayHelpers.GetServerInfo` | lib/btcpay-helpers.ts:8-29 | `fullStoreUrl` is the configured URL unchanged, `""` when unset |
| `BtcpayHelpers.ServerInfoWithoutStores` | lib/btcpay-helpers.ts:23-28 | without `/stores/`, the base URL is the URL and the store is `current` |
| `BtcpayHelpers.ServerInfoUnset` | lib/btcpay-helpers.ts:9-28 | an unset URL gives base `""` and store `current` |
| `BtcpayHelpers.ServerInfoSplitsAtFirstStores` | lib/btcpay-helpers.ts:12-20 | with `/stores/`, the base is the text before its first occurrence and the store id the text after it up to the next `/` |
| `BtcpayHelpers.BaseUrlHasNoStoresMarker` | lib/btcpay-helpers.ts:12-13 | the base URL never contains `/stores/` |
| `BtcpayHelpers.StoreIdHasNoSlash` | lib/btcpay-helpers.ts:13-14 | the store id never contains `/` |
| `BtcpayHelpers.StoreUrlIsPrefix` | lib/btcpay-helpers.ts:13-14 | base URL + `/stores/` + store id is a prefix of the configured URL |
| `BtcpayHelpers.StoreIdEmptyExactly` | lib/btcpay-helpers.ts:13-14 | the store id is empty exactly when `/stores/` ends the URL or is followed directly by `/` |
| `BtcpayApi.LoadConfig` | lib/btcpay-api.ts:6-12 | a configuration exists exactly when both URL and key are set and non-empty; the URL is checked first, each with its own message |
| `BtcpayApi.InvoicesUrl` | lib/btcpay-api.ts:18 | the invoices collection of the `current` store under the configured URL; every request of this client is addressed below it |
| `BtcpayApi.DescriptionMetadata` | lib/btcpay-api.ts:27-29 | the metadata sent holds the description when there is one, and is empty otherwise |
| `BtcpayApi.CreateInvoiceRequest` | lib/btcpay-api.ts:18-31 | a POST to `<url>/api/v1/stores/current/invoices` with JSON content, the token header, and the amount, currency and description |
| `BtcpayApi.GetInvoiceRequest` | lib/btcpay-api.ts:63-67 | a GET of `<invoices>/<id>` carrying only the token header |
| `BtcpayApi.GetInvoicesRequest` | lib/btcpay-api.ts:99-104 | a GET of `<invoices>?limit=<n>`, with limit 10 when none is given |
| `BtcpayApi.Description` | lib/btcpay-api.ts:50 | `metadata?.description`: defined exactly when the metadata has a description |
| `BtcpayApi.BitcoinAddress` | lib/btcpay-api.ts:54 | `addresses?.bitcoin`: defined exactly when there is a `bitcoin` address |
| `BtcpayApi.BtcAmount` | lib/btcpay-api.ts:55 | defined only when the first cryptoInfo entry is BTC, and then it is that entry's `due` |
| `BtcpayApi.BtcAmountReadsFirstEntryOnly` | lib/btcpay-api.ts:55 | entries after the first never change the BTC amount |
| `BtcpayApi.Normalize` | lib/btcpay-api.ts:41-56 | every copied field equals the server's; paymentLink = checkoutLink; description, address and BTC amount are read as above |
| `BtcpayApi.NormalizeListed` | lib/btcpay-api.ts:112-124 | a listed invoice is the full normalisation without paymentLink, bitcoinAddress or btcAmount |
| `BtcpayApi.NormalizeAll` | lib/btcpay-api.ts:112-124 | the list keeps the server list's length and order, entry by entry |
| `BtcpayApi.CreateInvoiceOutcome` | lib/btcpay-api.ts:33-56 | succeeds exactly on an ok JSON answer, with its normalisation. A failed answer gives the server's message or `Failed to create invoice`. Non-JSON and network errors propagate |
| `BtcpayApi.GetInvoiceOutcome` | lib/btcpay-api.ts:69-93 | `Invoice not found` exactly on 404, `Failed to fetch invoice` on any other failed status, otherwise the normalised record |
| `BtcpayApi.GetInvoicesOutcome` | lib/btcpay-api.ts:106-124 | `Failed to fetch invoices` on a failed status; a non-JSON 2xx body rejects with its syntax error; otherwise the normalised list, same length and order |
| `BtcpayApi.CheckInvoiceStatusRequest` | lib/btcpay-api.ts:130-132 | sends exactly getInvoice's request |
| `BtcpayApi.CheckInvoiceStatusOutcome` | lib/btcpay-api.ts:130-132 | returns exactly what getInvoice returns |
| `BtcpayApi.EveryRequestAuthorized` | lib/btcpay-api.ts:18-104 | every request carries `Authorization: token <key>` |
| `Btcpay.TokenHeader` | lib/btcpay.ts:14 | `token <key>`, or `token undefined` when the key is unset |
| `Btcpay.InvoicesPath` | lib/btcpay.ts:10 | the invoices collection of the store named in the split URL, under its base URL; `ClientsAgreeWithoutStoresSegment` and `ClientsDisagreeWithStoresSegment` relate it to the other client |
| `Btcpay.CreateInvoiceRequest` | lib/btcpay.ts:6-21 | a POST to `<baseUrl>/api/v1/stores/<storeId>/invoices` from the split URL; metadata defaults to `{}` |
| `Btcpay.GetInvoiceRequest` | lib/btcpay.ts:38-46 | a GET of that path + `/<id>` with the token header only |
| `Btcpay.StatusMessage` | lib/btcpay.ts:25 | the failure message `<operation>: <status> <text>` shared by this client and the connection route; `FailureMessageCarriesStatus` proves the status reads back from it |
| `Btcpay.Outcome` | lib/btcpay.ts:23-32 | network errors are rethrown unchanged; a failed status gives `<operation>: <status> <text>`; otherwise the JSON body |
| `Btcpay.CreateInvoiceOutcome` | lib/btcpay.ts:6-33 | the outcome with the operation `Failed to create invoice` |
| `Btcpay.GetInvoiceOutcome` | lib/btcpay.ts:38-58 | the outcome with the operation `Failed to get invoice` |
| `Btcpay.FailureMessageCarriesStatus` | lib/btcpay.ts:23-26 | a failure message starts with `<operation>: ` and the status code can be read back from it |
| `Btcpay.CheckPaymentStatus` | lib/btcpay.ts:63-72 | paid iff status is `Settled` or `Processing`, and expired iff `Expired`, both compared case-sensitively, so never both. Status, amount and currency are copied; getInvoice errors propagate |
| `Btcpay.ClientsAgreeWithoutStoresSegment` | lib/btcpay.ts:8-10 | without `/stores/` in the URL, both clients address the same invoices collection |
| `Btcpay.ClientsDisagreeWithStoresSegment` | lib/btcpay.ts:8-10 | with `/stores/` in the URL, the two clients never address the same collection |
| `CreateInvoiceRoute.HandlePost` | app/api/create-invoice/route.ts:4-13 | bad JSON gives 500. A falsy amount or currency gives 400 `Amount and currency are required` with no call. Otherwise amount, currency and metadata are forwarded unchanged |
| `CreateInvoiceRoute.AmountTruthy` | app/api/create-invoice/route.ts:9 | `!amount` is false exactly for a present, non-zero amount, so negative amounts pass (`NegativeAmountForwarded`) |
| `CreateInvoiceRoute.HandlePostCompleted` | app/api/create-invoice/route.ts:13-19 | the created invoice is the body of a 200 reply; any failure gives 500 `Failed to create invoice` |
| `CreateInvoiceRoute.NegativeAmountForwarded` | app/api/create-invoice/route.ts:9-13 | a negative amount passes the check and is sent unchanged |
| `CreateInvoiceRoute.FailuresIndistinguishable` | app/api/create-invoice/route.ts:16-19 | all failures of the call give the same reply |
| `ConnectionRoute.HandleGet` | app/api/check-btcpay-connection/route.ts:4-21 | an empty base URL or store id gives 400 before the key check. A missing key gives 400. Only then is the store fetched, with the token header |
| `ConnectionRoute.StoreUrl` | app/api/check-btcpay-connection/route.ts:17 | the store record under the base URL, named by the store id from the split; `HandleGet` fetches exactly this URL |
| `ConnectionRoute.HandleGetCompleted` | app/api/check-btcpay-connection/route.ts:23-47 | a failed status gives 500 `Failed to connect to BTCPay Server: <status> <text>`; thrown errors give 500 with their message or `An unknown error occurred`; success gives `success: true` with the store's id and name |
| `ConnectionRoute.UrlCheckFailsExactly` | app/api/check-btcpay-connection/route.ts:6-10 | the URL check fails exactly when the URL is empty, starts with `/stores/`, or has `/stores/` followed by nothing or by `/` |
| `ConnectionRoute.OnlyIdAndNameReported` | app/api/check-btcpay-connection/route.ts:31-40 | other store fields never affect the reply |
| `InvoiceDetails.StatusGroups` | components/invoice-details.tsx:25-38 | the stop set is the paid group plus expired/invalid; no pollable status is in it |
| `InvoiceDetails.IsPollable` | components/invoice-details.tsx:25 | the lower-cased status is `new`, `processing` or `unconfirmed`; `StatusGroups` and `ClassifiersSeeOnlyLowerCase` state its relations |
| `InvoiceDetails.IsStop` | components/invoice-details.tsx:34 | the lower-cased status is settled, complete, paid, expired or invalid; `StatusGroups` proves it is the paid group plus the failed group |
| `InvoiceDetails.IsPaid` | components/invoice-details.tsx:38 | the lower-cased status is settled, complete or paid; disjoint from the failed group (`StatusGroups`) |
| `InvoiceDetails.IsFailed` | components/invoice-details.tsx:66 | the lower-cased status is expired or invalid; disjoint from the paid group (`StatusGroups`) |
| `InvoiceDetails.StatusColor` | components/invoice-details.tsx:63-68 | green iff paid group, destructive iff expired/invalid, amber for every other string |
| `InvoiceDetails.StatusIcon` | components/invoice-details.tsx:70-75 | the icon matches the colour for the same status |
| `InvoiceDetails.Mount` | components/invoice-details.tsx:19-27 | the first render shows the given invoice; polling and the interval start exactly for a pollable status; otherwise isPolling stays false |
| `InvoiceDetails.MountLive` | components/invoice-details.tsx:19-27 | the mounted state satisfies the polling invariant |
| `InvoiceDetails.Effect` | components/invoice-details.tsx:24-27 | a pollable status sets isPolling and starts an interval, nothing else changes; from a consistent state it leaves a live one |
| `InvoiceDetails.StatusChangedSpec` | components/invoice-details.tsx:51-53 | after the cleanup and the rerun an interval exists exactly for a pollable status; invoice and toasts are kept, and the state is live |
| `InvoiceDetails.Unmounted` | components/invoice-details.tsx:51 | no interval remains; invoice, isPolling and toasts are kept, and the state is consistent |
| `InvoiceDetails.TickSpec` | components/invoice-details.tsx:28-53 | a failed fetch changes nothing; a fetched invoice is shown; the notice is added exactly for a paid status; a stop status clears isPolling and the interval |
| `InvoiceDetails.TickOutcome` | components/invoice-details.tsx:28-45 | a successful tick installs the fetched invoice whatever its status. An interval remains iff the status is pollable. A stop status clears isPolling. The notice is added iff paid |
| `InvoiceDetails.FailedTickChangesNothing` | components/invoice-details.tsx:46-48 | a failed fetch leaves invoice, isPolling and the interval unchanged |
| `InvoiceDetails.TickLive` | components/invoice-details.tsx:24-53 | every tick preserves the polling invariant |
| `InvoiceDetails.UnknownStatusLeavesPollingFlag` | components/invoice-details.tsx:25-53 | a fetched status in neither set leaves no interval while isPolling stays true |
| `InvoiceDetails.ClearIdempotent` | components/invoice-details.tsx:51 | clearing the interval twice has no further effect |
| `InvoiceDetails.NoTickAfterStop` | components/invoice-details.tsx:34-36 | after a stop status nothing is fetched again |
| `InvoiceDetails.Run` | components/invoice-details.tsx:28-50 | successive firings while an interval exists: without one nothing changes, and toasts are only ever appended |
| `InvoiceDetails.PaymentNoticeAtMostOnce` | components/invoice-details.tsx:34-45 | when each fetch settles before the next firing, the payment notice is added at most once over any sequence of ticks, and earlier toasts are kept |
| `InvoiceDetails.RunLive` | components/invoice-details.tsx:24-53 | every state reached by ticking keeps the invariant |
| `InvoiceDetails.UsualStatuses` | components/invoice-details.tsx:25-38 | `New` and `Processing` are pollable; `Settled` stops and is paid |
| `InvoiceDetails.PollableFetchKeepsPolling` | components/invoice-details.tsx:28-32 | fetching a pollable status keeps polling with no notice |
| `InvoiceDetails.NewThenProcessing` | components/invoice-details.tsx:24-32 | a `New` invoice that fetches `Processing` keeps polling |
| `InvoiceDetails.ProcessingThenSettled` | components/invoice-details.tsx:28-48 | after a failed fetch and then `Settled`, polling stops with exactly one notice |
| `InvoiceDetails.InvoicePoller.constructor` | components/invoice-details.tsx:19-27 | the object starts in the state `Mount` describes |
| `InvoiceDetails.InvoicePoller.RunEffect` | components/invoice-details.tsx:24-27 | the effect body changes the state as `Effect` says |
| `InvoiceDetails.InvoicePoller.StatusChanged` | components/invoice-details.tsx:51-53 | a dependency change runs the cleanup and then the effect, and leaves a state that satisfies the polling invariant |
| `InvoiceDetails.InvoicePoller.Tick` | components/invoice-details.tsx:28-48 | one firing changes the state exactly as `TickSpec` says and keeps the invariant |
| `InvoiceDetails.InvoicePoller.Unmount` | components/invoice-details.tsx:51 | teardown clears the interval |
| `InvoicesList.BadgeVariant` | components/invoices-list.tsx:96-115 | new/processing give secondary; settled/complete/paid give success; expired/invalid give destructive; everything else gives outline; `default` is never chosen |
| `InvoicesList.CardOf` | components/invoices-list.tsx:64-91 | a card has the description or `No description`, the badge of its status, and the link `/invoice/<id>` |
| `InvoicesList.CardsOf` | components/invoices-list.tsx:62-93 | one card per invoice, in order |
| `InvoicesList.Render` | components/invoices-list.tsx:33-62 | loading first, then the error, then the empty message, then the cards |
| `InvoicesList.InvoiceList.constructor` | components/invoices-list.tsx:12-15 | starts loading, with no invoices and no error |
| `InvoicesList.InvoiceList.LoadSettled` | components/invoices-list.tsx:17-31 | success sets the list; failure sets the error message and leaves the list as it was; loading ends either way |
| `InvoicesList.Load` | components/invoices-list.tsx:12-62 | from mount to the settled load, the screen shows the error card, the empty card, or the cards of the fetched list |
| `PaymentForm.CreateFailedToast` | components/payment-form.tsx:58-64 | the failure toast carries the error's message, or `An unknown error occurred` |
| `PaymentForm.AmountRejected` | components/payment-form.tsx:33 | rejected exactly when the amount text is empty or parses to a number at most 0; NaN compares false and is not rejected; `AcceptedAmount` and `NaNPassesCheck` state what it admits |
| `PaymentForm.AcceptedAmount` | components/payment-form.tsx:33-40 | an accepted amount is non-empty and, when it parses, positive |
| `PaymentForm.NaNPassesCheck` | components/payment-form.tsx:33 | non-empty text that parses to NaN is not rejected |
| `PaymentForm.SubmittedParams` | components/payment-form.tsx:45-49 | amount and currency are passed on; a blank description becomes `Payment via BTCPay Server` |
| `PaymentForm.Form.constructor` | components/payment-form.tsx:18-23 | empty amount, currency `USD`, empty description, not loading |
| `PaymentForm.Form.HandleChange` | components/payment-form.tsx:25-28 | only the named field changes |
| `PaymentForm.Form.BeginSubmit` | components/payment-form.tsx:30-49 | a rejected amount adds the invalid-amount toast and returns before loading starts or any call is made. Otherwise loading starts and the parameters are returned |
| `PaymentForm.Form.FinishSubmit` | components/payment-form.tsx:44-67 | success gives a toast and navigation to `/invoice/<id>`; failure gives the error toast; loading ends either way |
| `PaymentForm.Form.HandleSubmit` | components/payment-form.tsx:30-68 | the call is made exactly for an accepted amount, with the parameters `SubmittedParams` builds. A rejected amount adds the invalid-amount toast. Success adds the created toast and navigates to `/invoice/<id>`; failure adds the error toast and does not navigate. Loading never outlives the submit |
| `StatusVocabularies.Classified` | components/invoices-list.tsx:99-115 | the details page's sets, colour and the badge are read off the lower-cased status |
| `StatusVocabularies.UnconfirmedPolledButOutlined` | components/invoices-list.tsx:113-114 | `unconfirmed` is polled and amber on the details page but gets the default outline badge |
| `StatusVocabularies.NewAndProcessingSecondary` | components/invoices-list.tsx:100-103 | `new` and `processing` are polled, amber and secondary |
| `StatusVocabularies.ProcessingPaidOnlyByCheck` | lib/btcpay.ts:67 | `Processing` is paid for checkPaymentStatus only; the details page polls it in amber |
| `StatusVocabularies.LowerCaseSettledNotPaidByCheck` | lib/btcpay.ts:67 | lower-case `settled` is paid for the page and badge but not for checkPaymentStatus |
| `StatusVocabularies.CompleteAndPaidNotPaidByCheck` | lib/btcpay.ts:67 | `Complete` and `Paid` are never paid for checkPaymentStatus |
| `StatusVocabularies.SettledPaidEverywhere` | lib/btcpay.ts:67 | `Settled` is paid for all three classifiers |
| `StatusVocabularies.CheckPaidAgreesOnlyOnSettled` | lib/btcpay.ts:67 | where checkPaymentStatus says paid, the details page agrees exactly for `Settled` |
| `StatusVocabularies.BadgeAgreesWithColour` | components/invoices-list.tsx:99-115 | badge success iff green; badge destructive iff destructive colour; amber iff secondary or outline |
| `StatusVocabularies.ClassifiersSeeOnlyLowerCase` | components/invoices-list.tsx:99 | the colour, the polling sets and the badge depend only on the lower-cased status |

## Left out

- `fetch`, `response.json()`, `response.text()` and `process.env` are parameters. A settled fetch is a `Fetched<T>` value, and the environment is an `Env` or `Config` value. A rejection of `response.text()` itself is not modelled.
- The body of a 2xx answer is assumed to have the declared record shape, because the TypeScript types say so. Other JSON shapes (numbers as strings, missing fields, a non-array list) are not modelled.
- The JSON body of a failed answer is seen only through `message: Option<string>`. A `null` body, on which `error.message` throws a `TypeError`, and a non-string truthy `message`, which `new Error(...)` turns into text (lib/btcpay-api.ts:34-35), are not modelled.
- Amounts are `real`: JavaScript floating point and its rounding are not modelled. `Number.parseFloat` is a parameter of type `string -> Option<real>`, with `None` standing for NaN.
- PaymentForm.Form.BeginSubmit: requires that a non-empty amount parses, which the `type="number"` input (components/payment-form.tsx:77-87) guarantees. A NaN amount, which passes the check as written (`PaymentForm.NaNPassesCheck`), is therefore never sent in the model.
- PaymentForm.Form.HandleSubmit: carries the same requirement on the amount text as `BeginSubmit`, for the same reason.
- `toLowerCase` is modelled for ASCII only. The one non-ASCII character whose lower case is ASCII is the Kelvin sign (to `k`), and no status word contains `k`, so classification is unaffected.
- Timers and React scheduling are not modelled. The interval is the `intervalActive` flag, and each firing is an explicit `Tick` with the result the fetch settled with. Two fetches in flight at once, and results arriving out of order, are not modelled.
- InvoiceDetails.PaymentNoticeAtMostOnce: holds only because each `Tick` settles its fetch before the next firing. `setInterval` fires every 5 seconds whether or not the previous `checkInvoiceStatus` has settled (components/invoice-details.tsx:28-49). So two pending fetches that both settle with `Settled` each add the notice, and a late `Processing` answer after `Settled` restarts polling. The lemma does not cover these interleavings.
- Rendering is modelled only where a property needs it (`InvoicesList.Render`, the cards, the toasts and the navigations). JSX, `formatDistanceToNow`, the clipboard and `window.open` are left out.
- components/create-invoice-form.tsx and components/btcpay-debug.tsx are not part of this model: they are UI plus request plumbing.
- The webhook routes are not part of this model: they only log each event and return the same reply.
- app/api/check-payment/[invoiceId]/route.ts is not part of this model; `checkPaymentStatus`, which it calls, is modelled.
- `console.error` logging in every `catch` is left out.
