/**
  app/api/check-btcpay-connection/route.ts: `GET` checks the configuration in a
  fixed order, then asks the server for the configured store.
 */
module ConnectionRoute {
  import opened Values
  import opened Text
  import opened Greenfield
  import opened Http
  import opened BtcpayHelpers
  import Btcpay

  datatype ReplyBody =
    | ErrorReply(error: string)
    | Connected(success: bool, message: string, storeId: string, storeName: string)

  /** A route response: status code and JSON body. */
  datatype Reply = Reply(status: nat, body: ReplyBody)

  /** What the handler does before it awaits `fetch`: answer at once, or send this request. */
  datatype Step = Respond(reply: Reply) | FetchStore(request: Request<()>)

  const UrlNotConfigured := "BTCPay Server URL is not properly configured"
  const KeyNotConfigured := "BTCPay API key is not configured"
  const ConnectFailed := "Failed to connect to BTCPay Server"
  const ConnectedMessage := "Successfully connected to BTCPay Server"
  const UnknownError := "An unknown error occurred"

  /** The store record's URL: `${baseUrl}/api/v1/stores/${storeId}`. */
  function StoreUrl(info: ServerInfo): string {
    info.baseUrl + "/api/v1/stores/" + info.storeId
  }

  /**
    The handler up to the `fetch`: an empty base URL or store id is answered
    first, a missing API key second, and only then is the store requested.
   */
  function HandleGet(env: Btcpay.Env): (step: Step)
    ensures var info := GetServerInfo(env.serverUrl);
      (info.baseUrl == "" || info.storeId == "") ==> step == Respond(Reply(400, ErrorReply(UrlNotConfigured)))
    ensures var info := GetServerInfo(env.serverUrl);
      info.baseUrl != "" && info.storeId != "" && !Truthy(env.apiKey) ==>
        step == Respond(Reply(400, ErrorReply(KeyNotConfigured)))
    ensures step.FetchStore? <==>
      GetServerInfo(env.serverUrl).baseUrl != "" && GetServerInfo(env.serverUrl).storeId != "" && Truthy(env.apiKey)
    ensures step.FetchStore? ==> step.request == Request(Get, StoreUrl(GetServerInfo(env.serverUrl)),
      [Authorization(env.apiKey.value)], None)
  {
    var info := GetServerInfo(env.serverUrl);
    if info.baseUrl == "" || info.storeId == "" then
      Respond(Reply(400, ErrorReply(UrlNotConfigured)))
    else if !Truthy(env.apiKey) then
      Respond(Reply(400, ErrorReply(KeyNotConfigured)))
    else
      FetchStore(Request(Get, StoreUrl(info), [Btcpay.TokenHeader(env.apiKey)], None))
  }

  /**
    The handler after `fetch` settles: a failed response gives 500 with its
    status and text, a store record gives its id and name only, and anything
    thrown gives 500 with the error's message.
   */
  function HandleGetCompleted(fetched: Fetched<StoreJson>): (reply: Reply)
    ensures fetched.Failure? ==> reply == Reply(500, ErrorReply(MessageOr(fetched.error, UnknownError)))
    ensures fetched.Success? && !fetched.value.Ok() ==> reply == Reply(500,
      ErrorReply(ConnectFailed + ": " + NatToString(fetched.value.status) + " " + fetched.value.text))
    ensures fetched.Success? && fetched.value.Ok() && fetched.value.body.NotJson? ==>
      reply == Reply(500, ErrorReply(fetched.value.body.syntaxError))
    ensures reply.status == 200 <==> fetched.Success? && fetched.value.Ok() && fetched.value.body.Json?
    ensures reply.status == 200 ==> reply.body == Connected(true, ConnectedMessage,
      fetched.value.body.record.id, fetched.value.body.record.name)
  {
    match fetched
    case Failure(e) => Reply(500, ErrorReply(MessageOr(e, UnknownError)))
    case Success(response) =>
      if !response.Ok() then
        Reply(500, ErrorReply(Btcpay.StatusMessage(ConnectFailed, response)))
      else
        match ReadJson(response)
        case Failure(e) => Reply(500, ErrorReply(MessageOr(e, UnknownError)))
        case Success(store) => Reply(200, Connected(true, ConnectedMessage, store.id, store.name))
  }

  /**
    The URL check fails exactly when the configured URL is empty, starts with
    `/stores/`, or has `/stores/` followed by nothing or by `/`.
   */
  lemma {:induction false} UrlCheckFailsExactly(url: string)
    ensures var info := GetServerInfo(Some(url));
      (info.baseUrl == "" || info.storeId == "") <==>
        url == "" ||
        (Contains(url, StoresMarker) &&
          var i := FirstIndex(url, StoresMarker).value;
          var rest := url[i + |StoresMarker|..];
          i == 0 || rest == "" || rest[0] == '/')
  {
    if Contains(url, StoresMarker) {
      ServerInfoSplitsAtFirstStores(url);
      StoreIdEmptyExactly(url);
    }
  }

  /** The same store record always gives the same reply, whatever its other fields hold. */
  lemma OnlyIdAndNameReported(status: nat, text: string, id: string, name: string,
                              a: map<string, string>, b: map<string, string>, message: Option<string>)
    ensures HandleGetCompleted(Success(Response(status, text, Json(StoreJson(id, name, a), message)))) ==
            HandleGetCompleted(Success(Response(status, text, Json(StoreJson(id, name, b), message))))
  {
  }
}
