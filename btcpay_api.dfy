/**
  lib/btcpay-api.ts: the Greenfield client the pages use. It always talks to
  the `current` store under the configured URL, and turns server records into
  the storefront's `Invoice`.
 */
module BtcpayApi {
  import opened Values
  import opened Text
  import opened Types
  import opened Greenfield
  import opened Http

  /** The two settings the module reads when it is loaded. */
  datatype ApiConfig = ApiConfig(serverUrl: string, apiKey: string)

  /** A configuration that passed the load-time guard; requests can only be built from one. */
  type Config = c: ApiConfig | c.serverUrl != "" && c.apiKey != "" witness ApiConfig("-", "-")

  const MissingUrl := "BTCPAY_SERVER_URL environment variable is not set"
  const MissingKey := "BTCPAY_API_KEY environment variable is not set"

  /** Loading the module: it throws unless both settings are set, and checks the URL first. */
  function LoadConfig(serverUrl: Option<string>, apiKey: Option<string>): (r: Result<Config, Thrown>)
    ensures r.Success? <==> Truthy(serverUrl) && Truthy(apiKey)
    ensures r.Success? ==> r.value == ApiConfig(serverUrl.value, apiKey.value)
    ensures !Truthy(serverUrl) ==> r == Failure(Error(MissingUrl))
    ensures Truthy(serverUrl) && !Truthy(apiKey) ==> r == Failure(Error(MissingKey))
  {
    if !Truthy(serverUrl) then Failure(Error(MissingUrl))
    else if !Truthy(apiKey) then Failure(Error(MissingKey))
    else Success(ApiConfig(serverUrl.value, apiKey.value))
  }

  /** The invoices collection of the `current` store. */
  function InvoicesUrl(config: Config): string {
    config.serverUrl + "/api/v1/stores/current/invoices"
  }

  /** `metadata: { description }`, where an undefined description is dropped by `JSON.stringify`. */
  function DescriptionMetadata(description: Option<string>): (m: map<string, string>)
    ensures description.None? ==> m == map[]
    ensures description.Some? ==> m == map["description" := description.value]
  {
    match description
    case None => map[]
    case Some(d) => map["description" := d]
  }

  /** The request `createInvoice(params)` sends. */
  function CreateInvoiceRequest(config: Config, params: CreateInvoiceParams): (req: Request<NewInvoiceJson>)
    ensures req.verb == Post && req.url == InvoicesUrl(config)
    ensures Authorization(config.apiKey) in req.headers && JsonContent in req.headers
    ensures req.body == Some(NewInvoiceJson(params.amount, params.currency, DescriptionMetadata(params.description)))
  {
    Request(Post, InvoicesUrl(config), [JsonContent, Authorization(config.apiKey)],
      Some(NewInvoiceJson(params.amount, params.currency, DescriptionMetadata(params.description))))
  }

  /** The request `getInvoice(invoiceId)` sends. */
  function GetInvoiceRequest(config: Config, invoiceId: string): (req: Request<()>)
    ensures req.verb == Get && req.url == InvoicesUrl(config) + "/" + invoiceId
    ensures req.headers == [Authorization(config.apiKey)] && req.body.None?
  {
    Request(Get, InvoicesUrl(config) + "/" + invoiceId, [Authorization(config.apiKey)], None)
  }

  const DefaultLimit: nat := 10

  /** The request `getInvoices(limit)` sends; an omitted limit is 10. */
  function GetInvoicesRequest(config: Config, limit: Option<nat>): (req: Request<()>)
    ensures req.verb == Get && req.headers == [Authorization(config.apiKey)] && req.body.None?
    ensures limit.None? ==> req.url == InvoicesUrl(config) + "?limit=10"
    ensures limit.Some? ==> req.url == InvoicesUrl(config) + "?limit=" + NatToString(limit.value)
  {
    var n := match limit case None => DefaultLimit case Some(l) => l;
    Request(Get, InvoicesUrl(config) + "?limit=" + NatToString(n), [Authorization(config.apiKey)], None)
  }

  /** `data.metadata?.description`. */
  function Description(metadata: Option<map<string, string>>): (d: Option<string>)
    ensures d.Some? <==> metadata.Some? && "description" in metadata.value
    ensures d.Some? ==> d.value == metadata.value["description"]
  {
    if metadata.Some? && "description" in metadata.value then Some(metadata.value["description"]) else None
  }

  /** `data.addresses?.bitcoin`. */
  function BitcoinAddress(addresses: Option<map<string, string>>): (a: Option<string>)
    ensures a.Some? <==> addresses.Some? && "bitcoin" in addresses.value
    ensures a.Some? ==> a.value == addresses.value["bitcoin"]
  {
    if addresses.Some? && "bitcoin" in addresses.value then Some(addresses.value["bitcoin"]) else None
  }

  /** The first `cryptoInfo` entry names BTC. */
  predicate FirstEntryIsBtc(cryptoInfo: Option<seq<CryptoInfo>>) {
    cryptoInfo.Some? && |cryptoInfo.value| > 0 && cryptoInfo.value[0].cryptoCode == Some("BTC")
  }

  /** `data.cryptoInfo?.[0]?.cryptoCode === "BTC" ? data.cryptoInfo[0].due : undefined`. */
  function BtcAmount(cryptoInfo: Option<seq<CryptoInfo>>): (amount: Option<string>)
    ensures amount.Some? ==> FirstEntryIsBtc(cryptoInfo)
    ensures FirstEntryIsBtc(cryptoInfo) ==> amount == cryptoInfo.value[0].due
  {
    if FirstEntryIsBtc(cryptoInfo) then cryptoInfo.value[0].due else None
  }

  /** Only the first `cryptoInfo` entry is ever consulted. */
  lemma BtcAmountReadsFirstEntryOnly(first: CryptoInfo, later: seq<CryptoInfo>)
    ensures BtcAmount(Some([first] + later)) == BtcAmount(Some([first]))
  {
  }

  /** The record `createInvoice` and `getInvoice` build from a server invoice. */
  function Normalize(data: InvoiceJson): (inv: Invoice)
    ensures inv.id == data.id && inv.storeId == data.storeId && inv.amount == data.amount
    ensures inv.currency == data.currency && inv.status == data.status
    ensures inv.createdTime == data.createdTime && inv.expirationTime == data.expirationTime
    ensures inv.monitoringExpiration == data.monitoringExpiration && inv.receiptUrl == data.receiptUrl
    ensures inv.paymentLink == inv.checkoutLink == data.checkoutLink
    ensures inv.description == Description(data.metadata)
    ensures inv.bitcoinAddress == BitcoinAddress(data.addresses)
    ensures inv.btcAmount == BtcAmount(data.cryptoInfo)
  {
    Invoice(data.id, data.storeId, data.amount, data.currency, data.status, data.createdTime,
      data.expirationTime, data.monitoringExpiration, Description(data.metadata), data.receiptUrl,
      data.checkoutLink, data.checkoutLink, BitcoinAddress(data.addresses), BtcAmount(data.cryptoInfo))
  }

  /** The record `getInvoices` builds for each listed invoice: no payment link, address or BTC amount. */
  function NormalizeListed(data: InvoiceJson): (inv: Invoice)
    ensures inv.paymentLink.None? && inv.bitcoinAddress.None? && inv.btcAmount.None?
    ensures inv == Normalize(data).(paymentLink := None, bitcoinAddress := None, btcAmount := None)
  {
    Invoice(data.id, data.storeId, data.amount, data.currency, data.status, data.createdTime,
      data.expirationTime, data.monitoringExpiration, Description(data.metadata), data.receiptUrl,
      data.checkoutLink, None, None, None)
  }

  /** `data.map(...)` over the listed invoices. */
  function NormalizeAll(data: seq<InvoiceJson>): (list: seq<Invoice>)
    ensures |list| == |data|
    ensures forall k :: 0 <= k < |data| ==> list[k] == NormalizeListed(data[k])
  {
    if data == [] then [] else [NormalizeListed(data[0])] + NormalizeAll(data[1..])
  }

  const CreateFailed := "Failed to create invoice"
  const InvoiceNotFound := "Invoice not found"
  const FetchInvoiceFailed := "Failed to fetch invoice"
  const FetchInvoicesFailed := "Failed to fetch invoices"

  /**
    How `createInvoice` settles. A failed response rejects with the server's
    `message`, or a fixed text when it has none; a body that is not JSON
    rejects with the parser's error; a network failure propagates.
   */
  function CreateInvoiceOutcome(fetched: Fetched<InvoiceJson>): (r: Result<Invoice, Thrown>)
    ensures fetched.Failure? ==> r == Failure(fetched.error)
    ensures fetched.Success? && fetched.value.body.NotJson? ==> r == Failure(Error(fetched.value.body.syntaxError))
    ensures fetched.Success? && !fetched.value.Ok() && fetched.value.body.Json? ==>
      r == Failure(Error(OrElse(fetched.value.body.message, CreateFailed)))
    ensures r.Success? <==> fetched.Success? && fetched.value.Ok() && fetched.value.body.Json?
    ensures r.Success? ==> r.value == Normalize(fetched.value.body.record)
  {
    match fetched
    case Failure(e) => Failure(e)
    case Success(response) =>
      if !response.Ok() then
        match response.body
        case NotJson(e) => Failure(Error(e))
        case Json(_, message) => Failure(Error(OrElse(message, CreateFailed)))
      else
        match ReadJson(response)
        case Failure(e) => Failure(e)
        case Success(data) => Success(Normalize(data))
  }

  /** How `getInvoice` settles: 404 is "not found", any other failed status a generic error. */
  function GetInvoiceOutcome(fetched: Fetched<InvoiceJson>): (r: Result<Invoice, Thrown>)
    ensures fetched.Failure? ==> r == Failure(fetched.error)
    ensures fetched.Success? && fetched.value.status == 404 ==> r == Failure(Error(InvoiceNotFound))
    ensures fetched.Success? && !fetched.value.Ok() && fetched.value.status != 404 ==>
      r == Failure(Error(FetchInvoiceFailed))
    ensures fetched.Success? && fetched.value.Ok() && fetched.value.body.NotJson? ==>
      r == Failure(Error(fetched.value.body.syntaxError))
    ensures r.Success? <==> fetched.Success? && fetched.value.Ok() && fetched.value.body.Json?
    ensures r.Success? ==> r.value == Normalize(fetched.value.body.record)
  {
    match fetched
    case Failure(e) => Failure(e)
    case Success(response) =>
      if !response.Ok() then
        if response.status == 404 then Failure(Error(InvoiceNotFound)) else Failure(Error(FetchInvoiceFailed))
      else
        match ReadJson(response)
        case Failure(e) => Failure(e)
        case Success(data) => Success(Normalize(data))
  }

  /** How `getInvoices` settles: the listed invoices in the server's order, or a fixed error. */
  function GetInvoicesOutcome(fetched: Fetched<seq<InvoiceJson>>): (r: Result<seq<Invoice>, Thrown>)
    ensures fetched.Failure? ==> r == Failure(fetched.error)
    ensures fetched.Success? && !fetched.value.Ok() ==> r == Failure(Error(FetchInvoicesFailed))
    ensures fetched.Success? && fetched.value.Ok() && fetched.value.body.NotJson? ==>
      r == Failure(Error(fetched.value.body.syntaxError))
    ensures r.Success? <==> fetched.Success? && fetched.value.Ok() && fetched.value.body.Json?
    ensures r.Success? ==> |r.value| == |fetched.value.body.record|
    ensures r.Success? ==> forall k :: 0 <= k < |r.value| ==>
      r.value[k] == NormalizeListed(fetched.value.body.record[k])
  {
    match fetched
    case Failure(e) => Failure(e)
    case Success(response) =>
      if !response.Ok() then Failure(Error(FetchInvoicesFailed))
      else
        match ReadJson(response)
        case Failure(e) => Failure(e)
        case Success(data) => Success(NormalizeAll(data))
  }

  /** `checkInvoiceStatus(id)` sends the request of `getInvoice(id)`. */
  function CheckInvoiceStatusRequest(config: Config, invoiceId: string): (req: Request<()>)
    ensures req == GetInvoiceRequest(config, invoiceId)
  {
    GetInvoiceRequest(config, invoiceId)
  }

  /** `checkInvoiceStatus(id)` settles exactly as `getInvoice(id)`. */
  function CheckInvoiceStatusOutcome(fetched: Fetched<InvoiceJson>): (r: Result<Invoice, Thrown>)
    ensures r == GetInvoiceOutcome(fetched)
  {
    GetInvoiceOutcome(fetched)
  }

  /** Every request the client can build carries the API key as a token. */
  lemma EveryRequestAuthorized(config: Config, params: CreateInvoiceParams, invoiceId: string, limit: Option<nat>)
    ensures Authorization(config.apiKey) in CreateInvoiceRequest(config, params).headers
    ensures Authorization(config.apiKey) in GetInvoiceRequest(config, invoiceId).headers
    ensures Authorization(config.apiKey) in GetInvoicesRequest(config, limit).headers
    ensures Authorization(config.apiKey) in CheckInvoiceStatusRequest(config, invoiceId).headers
    ensures Authorization(config.apiKey).1 == "token " + config.apiKey
  {
  }
}
