/**
  app/api/create-invoice/route.ts: `POST` checks that an amount and a currency
  were sent, forwards them to lib/btcpay.ts and answers with its record, or
  with a fixed error.
 */
module CreateInvoiceRoute {
  import opened Values
  import opened Greenfield
  import opened Http
  import Btcpay

  /** The request's JSON fields the route reads. */
  datatype RequestJson = RequestJson(amount: Option<real>, currency: Option<string>, metadata: Option<map<string, string>>)

  datatype ReplyBody = ErrorReply(error: string) | InvoiceReply(invoice: InvoiceJson)

  /** A route response: status code and JSON body. */
  datatype Reply = Reply(status: nat, body: ReplyBody)

  /** What the handler does before it awaits `createInvoice`: answer at once, or send this request. */
  datatype Step = Respond(reply: Reply) | Forward(request: Request<NewInvoiceJson>)

  const FieldsRequired := "Amount and currency are required"
  const CreateFailed := "Failed to create invoice"

  /** `!amount` is false: the amount is present and not zero. */
  predicate AmountTruthy(amount: Option<real>) {
    amount.Some? && amount.value != 0.0
  }

  /**
    The handler up to the call of `createInvoice`: a body that is not JSON is
    answered with 500, a falsy amount or currency with 400, and anything else
    is forwarded unchanged.
   */
  function HandlePost(env: Btcpay.Env, body: Result<RequestJson, Thrown>): (step: Step)
    ensures body.Failure? ==> step == Respond(Reply(500, ErrorReply(CreateFailed)))
    ensures body.Success? && !(AmountTruthy(body.value.amount) && Truthy(body.value.currency)) ==>
      step == Respond(Reply(400, ErrorReply(FieldsRequired)))
    ensures step.Forward? <==> body.Success? && AmountTruthy(body.value.amount) && Truthy(body.value.currency)
    ensures step.Forward? ==> step.request == Btcpay.CreateInvoiceRequest(env,
      body.value.amount.value, body.value.currency.value, body.value.metadata)
  {
    match body
    case Failure(_) => Respond(Reply(500, ErrorReply(CreateFailed)))
    case Success(json) =>
      if !AmountTruthy(json.amount) || !Truthy(json.currency) then
        Respond(Reply(400, ErrorReply(FieldsRequired)))
      else
        Forward(Btcpay.CreateInvoiceRequest(env, json.amount.value, json.currency.value, json.metadata))
  }

  /** The handler after `createInvoice` settles: its record with 200, or 500 whatever the failure. */
  function HandlePostCompleted(fetched: Fetched<InvoiceJson>): (reply: Reply)
    ensures Btcpay.CreateInvoiceOutcome(fetched).Success? ==>
      reply == Reply(200, InvoiceReply(Btcpay.CreateInvoiceOutcome(fetched).value))
    ensures Btcpay.CreateInvoiceOutcome(fetched).Failure? ==> reply == Reply(500, ErrorReply(CreateFailed))
  {
    match Btcpay.CreateInvoiceOutcome(fetched)
    case Success(invoice) => Reply(200, InvoiceReply(invoice))
    case Failure(_) => Reply(500, ErrorReply(CreateFailed))
  }

  /** A negative amount passes the check and reaches the server as it was sent. */
  lemma NegativeAmountForwarded(env: Btcpay.Env, amount: real, currency: string, metadata: Option<map<string, string>>)
    requires amount < 0.0 && currency != ""
    ensures var step := HandlePost(env, Success(RequestJson(Some(amount), Some(currency), metadata)));
      step.Forward? && step.request.body.value.amount == amount
  {
  }

  /** Every failure of the call, whether thrown by the network or built from a failed response, reads the same. */
  lemma FailuresIndistinguishable(a: Fetched<InvoiceJson>, b: Fetched<InvoiceJson>)
    requires Btcpay.CreateInvoiceOutcome(a).Failure? && Btcpay.CreateInvoiceOutcome(b).Failure?
    ensures HandlePostCompleted(a) == HandlePostCompleted(b)
  {
  }
}
