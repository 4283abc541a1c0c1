/**
  lib/btcpay.ts: the Greenfield client the API routes use. It addresses the
  store named in the configured URL and returns the server's records as they are.
 */
module Btcpay {
  import opened Values
  import opened Text
  import opened Greenfield
  import opened Http
  import opened BtcpayHelpers
  import BtcpayApi

  /** The process environment as this file reads it, at each call. */
  datatype Env = Env(serverUrl: Option<string>, apiKey: Option<string>)

  /** `token ${process.env.BTCPAY_API_KEY}`: an unset key is written out as `undefined`. */
  function TokenHeader(apiKey: Option<string>): (h: Header)
    ensures apiKey.Some? ==> h == Authorization(apiKey.value)
    ensures apiKey.None? ==> h == Authorization("undefined")
  {
    Authorization(match apiKey case None => "undefined" case Some(k) => k)
  }

  /** `${baseUrl}/api/v1/stores/${storeId}/invoices`. */
  function InvoicesPath(info: ServerInfo): string {
    info.baseUrl + "/api/v1/stores/" + info.storeId + "/invoices"
  }

  /** The request `createInvoice(amount, currency, metadata)` sends; omitted metadata is `{}`. */
  function CreateInvoiceRequest(env: Env, amount: real, currency: string, metadata: Option<map<string, string>>)
    : (req: Request<NewInvoiceJson>)
    ensures req.verb == Post && req.url == InvoicesPath(GetServerInfo(env.serverUrl))
    ensures req.headers == [JsonContent, TokenHeader(env.apiKey)]
    ensures req.body.Some? && req.body.value.amount == amount && req.body.value.currency == currency
    ensures req.body.value.metadata == if metadata.Some? then metadata.value else map[]
  {
    var info := GetServerInfo(env.serverUrl);
    var sent := match metadata case None => map[] case Some(m) => m;
    Request(Post, InvoicesPath(info), [JsonContent, TokenHeader(env.apiKey)],
      Some(NewInvoiceJson(amount, currency, sent)))
  }

  /** The request `getInvoice(invoiceId)` sends. */
  function GetInvoiceRequest(env: Env, invoiceId: string): (req: Request<()>)
    ensures req.verb == Get && req.url == InvoicesPath(GetServerInfo(env.serverUrl)) + "/" + invoiceId
    ensures req.headers == [TokenHeader(env.apiKey)] && req.body.None?
  {
    Request(Get, InvoicesPath(GetServerInfo(env.serverUrl)) + "/" + invoiceId, [TokenHeader(env.apiKey)], None)
  }

  /** `${what}: ${response.status} ${errorText}`, the failure message of this client and of the connection route. */
  function StatusMessage<T>(what: string, response: Response<T>): string {
    what + ": " + NatToString(response.status) + " " + response.text
  }

  /**
    How a call of this file settles once `fetch` has: a failed response rejects
    with the operation's message, the status and the body text; otherwise the
    parsed record is returned as it is. Whatever is thrown is rethrown unchanged.
   */
  function Outcome(what: string, fetched: Fetched<InvoiceJson>): (r: Result<InvoiceJson, Thrown>)
    ensures fetched.Failure? ==> r == Failure(fetched.error)
    ensures fetched.Success? && !fetched.value.Ok() ==> r == Failure(Error(StatusMessage(what, fetched.value)))
    ensures fetched.Success? && fetched.value.Ok() ==> r == ReadJson(fetched.value)
  {
    match fetched
    case Failure(e) => Failure(e)
    case Success(response) =>
      if !response.Ok() then Failure(Error(StatusMessage(what, response))) else ReadJson(response)
  }

  /** How `createInvoice` settles. */
  function CreateInvoiceOutcome(fetched: Fetched<InvoiceJson>): (r: Result<InvoiceJson, Thrown>)
    ensures r == Outcome("Failed to create invoice", fetched)
  {
    Outcome("Failed to create invoice", fetched)
  }

  /** How `getInvoice` settles. */
  function GetInvoiceOutcome(fetched: Fetched<InvoiceJson>): (r: Result<InvoiceJson, Thrown>)
    ensures r == Outcome("Failed to get invoice", fetched)
  {
    Outcome("Failed to get invoice", fetched)
  }

  /** The failure message starts with the operation and ends with the status code and the body text. */
  lemma {:induction false} FailureMessageCarriesStatus(what: string, response: Response<InvoiceJson>)
    requires !response.Ok()
    ensures var m := Outcome(what, Success(response)).error.message;
      var digits := m[|what| + 2..|m| - |response.text| - 1];
      m[..|what| + 2] == what + ": " && ParseDigits(digits) == response.status
  {
    var digits := NatToString(response.status);
    var m := what + ": " + digits + " " + response.text;
    assert m[|what| + 2..|m| - |response.text| - 1] == digits;
    assert m[..|what| + 2] == what + ": ";
    NatToStringRoundTrip(response.status);
  }

  /** What `checkPaymentStatus` reports. */
  datatype PaymentStatus = PaymentStatus(status: string, paid: bool, expired: bool, paidAmount: real, currency: string)

  /**
    `checkPaymentStatus(invoiceId)` once `getInvoice` has settled: paid means
    exactly "Settled" or "Processing" and expired exactly "Expired", both
    compared with their capital letters; errors propagate.
   */
  function CheckPaymentStatus(invoice: Result<InvoiceJson, Thrown>): (r: Result<PaymentStatus, Thrown>)
    ensures invoice.Failure? ==> r == Failure(invoice.error)
    ensures invoice.Success? ==> r.Success?
    ensures r.Success? ==> r.value.status == invoice.value.status
    ensures r.Success? ==> r.value.paidAmount == invoice.value.amount && r.value.currency == invoice.value.currency
    ensures r.Success? ==> (r.value.paid <==> r.value.status in {"Settled", "Processing"})
    ensures r.Success? ==> (r.value.expired <==> r.value.status == "Expired")
    ensures r.Success? ==> !(r.value.paid && r.value.expired)
  {
    match invoice
    case Failure(e) => Failure(e)
    case Success(inv) =>
      Success(PaymentStatus(inv.status, inv.status == "Settled" || inv.status == "Processing",
        inv.status == "Expired", inv.amount, inv.currency))
  }

  /**
    Without a `/stores/` segment in the configured URL, both clients address
    the same invoices collection: that of the `current` store.
   */
  lemma ClientsAgreeWithoutStoresSegment(config: BtcpayApi.Config)
    requires !Contains(config.serverUrl, StoresMarker)
    ensures InvoicesPath(GetServerInfo(Some(config.serverUrl))) == BtcpayApi.InvoicesUrl(config)
  {
  }

  /**
    With a `/stores/` segment, they never do: this file uses the named store,
    while lib/btcpay-api.ts appends its own path to the full configured URL.
   */
  lemma ClientsDisagreeWithStoresSegment(config: BtcpayApi.Config)
    requires Contains(config.serverUrl, StoresMarker)
    ensures InvoicesPath(GetServerInfo(Some(config.serverUrl))) != BtcpayApi.InvoicesUrl(config)
  {
    var url := config.serverUrl;
    var i := FirstIndex(url, StoresMarker).value;
    var info := GetServerInfo(Some(url));
    assert info.baseUrl == url[..i] by {
      ServerInfoSplitsAtFirstStores(url);
    }
    MarkerSecondChar(url, i);
    PathsDifferAfterBase(info.baseUrl, info.storeId, url);
  }

  /** The character after the slash that opens an occurrence of `/stores/` is `s`. */
  lemma MarkerSecondChar(url: string, i: int)
    requires OccursAt(url, StoresMarker, i)
    ensures i + 1 < |url| && url[i + 1] == 's'
  {
    OccurrenceChar(url, StoresMarker, i, 1);
  }

  /** A path that continues the base URL with `/api` differs from one that continues it with `/s`. */
  lemma PathsDifferAfterBase(base: string, storeId: string, url: string)
    requires |base| + 1 < |url| && url[|base| + 1] == 's'
    ensures InvoicesPath(ServerInfo(base, storeId, url)) != url + "/api/v1/stores/current/invoices"
  {
    var p := InvoicesPath(ServerInfo(base, storeId, url));
    assert p[|base| + 1] == 'a';
    assert (url + "/api/v1/stores/current/invoices")[|base| + 1] == 's';
  }
}
