/**
  components/payment-form.tsx: the form that creates an invoice. It keeps the
  typed fields, checks the amount, calls `createInvoice` with a default
  description, and reports the outcome through toasts and a navigation.
 */
module PaymentForm {
  import opened Values
  import opened Types

  const InvalidAmount := Toast("Invalid amount", "Please enter a valid amount greater than 0", Some("destructive"))
  const InvoiceCreated := Toast("Invoice created", "Your invoice has been created successfully", None)
  /** The description sent when the field is left blank. */
  const DefaultDescription := "Payment via BTCPay Server"
  const UnknownError := "An unknown error occurred"

  /** The toast for a failed `createInvoice`. */
  function CreateFailedToast(e: Thrown): (t: Toast)
    ensures t.title == "Error creating invoice" && t.variant == Some("destructive")
    ensures e.Error? ==> t.description == e.message
    ensures e.NonError? ==> t.description == UnknownError
  {
    Toast("Error creating invoice", MessageOr(e, UnknownError), Some("destructive"))
  }

  /** The form's initial fields. */
  const InitialFields: map<string, string> := map["amount" := "", "currency" := "USD", "description" := ""]

  /**
    `!formData.amount || Number.parseFloat(formData.amount) <= 0`, where
    `parsed` is what `parseFloat` gives (`None` for NaN, which compares false).
   */
  predicate AmountRejected(text: string, parsed: Option<real>) {
    text == "" || (parsed.Some? && parsed.value <= 0.0)
  }

  /** An accepted amount is non-empty and, when it parses, positive. */
  lemma AcceptedAmount(text: string, parsed: Option<real>)
    requires !AmountRejected(text, parsed)
    ensures text != ""
    ensures parsed.Some? ==> parsed.value > 0.0
  {
  }

  /** Text that does not parse (NaN) is not rejected by the check as written. */
  lemma NaNPassesCheck(text: string)
    requires text != ""
    ensures !AmountRejected(text, None)
  {
  }

  /** The parameters passed to `createInvoice`: a blank description becomes the default. */
  function SubmittedParams(amount: real, currency: string, description: string): (p: CreateInvoiceParams)
    ensures p.amount == amount && p.currency == currency
    ensures p.description.Some? && p.description.value != ""
    ensures description != "" ==> p.description == Some(description)
    ensures description == "" ==> p.description == Some(DefaultDescription)
  {
    CreateInvoiceParams(amount, currency, Some(OrElse(Some(description), DefaultDescription)))
  }

  /** The form's state: the loading flag, the fields, and the toasts and navigations it caused. */
  class Form {
    var isLoading: bool
    var formData: map<string, string>
    var toasts: seq<Toast>
    var navigations: seq<string>

    /** The three fields the form reads are present. */
    predicate Valid()
      reads this
    {
      "amount" in formData && "currency" in formData && "description" in formData
    }

    constructor ()
      ensures Valid()
      ensures !isLoading && formData == InitialFields && toasts == [] && navigations == []
    {
      isLoading := false;
      formData := InitialFields;
      toasts := [];
      navigations := [];
    }

    /** `handleChange`: the field named by the input takes its value; nothing else changes. */
    method HandleChange(name: string, value: string)
      requires Valid()
      modifies this
      ensures Valid()
      ensures formData == old(formData)[name := value]
      ensures forall k :: k in old(formData) && k != name ==> formData[k] == old(formData)[k]
      ensures isLoading == old(isLoading) && toasts == old(toasts) && navigations == old(navigations)
    {
      formData := formData[name := value];
    }

    /**
      The synchronous part of `handleSubmit`: a rejected amount shows the
      invalid-amount toast and returns with nothing else changed; otherwise
      loading starts and the parameters for `createInvoice` are returned.
      `parseFloat` stands for `Number.parseFloat`; the number input only ever
      holds text that is empty or parses.
     */
    method BeginSubmit(parseFloat: string -> Option<real>) returns (call: Option<CreateInvoiceParams>)
      requires Valid()
      requires formData["amount"] != "" ==> parseFloat(formData["amount"]).Some?
      modifies this
      ensures Valid() && formData == old(formData) && navigations == old(navigations)
      ensures AmountRejected(formData["amount"], parseFloat(formData["amount"])) ==>
        call == None && toasts == old(toasts) + [InvalidAmount] && isLoading == old(isLoading)
      ensures !AmountRejected(formData["amount"], parseFloat(formData["amount"])) ==>
        call == Some(SubmittedParams(parseFloat(formData["amount"]).value, formData["currency"], formData["description"])) &&
        toasts == old(toasts) && isLoading
    {
      var amount := formData["amount"];
      if AmountRejected(amount, parseFloat(amount)) {
        toasts := toasts + [InvalidAmount];
        call := None;
        return;
      }
      isLoading := true;
      call := Some(SubmittedParams(parseFloat(amount).value, formData["currency"], formData["description"]));
    }

    /**
      The rest of `handleSubmit` once `createInvoice` settled: a toast and a
      navigation to the new invoice's page, or the error toast; loading ends
      either way.
     */
    method FinishSubmit(created: Result<Invoice, Thrown>)
      requires Valid()
      modifies this
      ensures Valid() && formData == old(formData) && !isLoading
      ensures created.Success? ==>
        toasts == old(toasts) + [InvoiceCreated] && navigations == old(navigations) + ["/invoice/" + created.value.id]
      ensures created.Failure? ==>
        toasts == old(toasts) + [CreateFailedToast(created.error)] && navigations == old(navigations)
    {
      match created {
        case Success(invoice) =>
          toasts := toasts + [InvoiceCreated];
          navigations := navigations + ["/invoice/" + invoice.id];
        case Failure(e) =>
          toasts := toasts + [CreateFailedToast(e)];
      }
      isLoading := false;
    }

    /**
      `handleSubmit` as a whole, with `createInvoice` given as the function
      from parameters to what its promise settles with: it is called only for
      an accepted amount, and the form is never left loading.
     */
    method HandleSubmit(parseFloat: string -> Option<real>, createInvoice: CreateInvoiceParams -> Result<Invoice, Thrown>)
      returns (call: Option<CreateInvoiceParams>)
      requires Valid()
      requires formData["amount"] != "" ==> parseFloat(formData["amount"]).Some?
      modifies this
      ensures Valid() && formData == old(formData) && isLoading == (old(isLoading) && call.None?)
      ensures call.None? <==> AmountRejected(formData["amount"], parseFloat(formData["amount"]))
      ensures call.None? ==> toasts == old(toasts) + [InvalidAmount] && navigations == old(navigations)
      ensures call.Some? ==> |toasts| == |old(toasts)| + 1 && call.value.description.Some?
      ensures call.Some? ==>
        call.value == SubmittedParams(parseFloat(formData["amount"]).value, formData["currency"], formData["description"])
      ensures call.Some? && createInvoice(call.value).Success? ==>
        toasts == old(toasts) + [InvoiceCreated] &&
        navigations == old(navigations) + ["/invoice/" + createInvoice(call.value).value.id]
      ensures call.Some? && createInvoice(call.value).Failure? ==>
        toasts == old(toasts) + [CreateFailedToast(createInvoice(call.value).error)] && navigations == old(navigations)
    {
      call := BeginSubmit(parseFloat);
      if call.Some? {
        FinishSubmit(createInvoice(call.value));
      }
    }
  }
}
