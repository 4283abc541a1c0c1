/**
  components/invoices-list.tsx: the list of recent invoices. It loads them
  once, then shows a loading card, an error card, an empty card or one card
  per invoice with a status badge.
 */
module InvoicesList {
  import opened Values
  import opened Text
  import opened Types

  /** The badge's variants; `Default` is declared by the badge but never chosen. */
  datatype Variant = Default | Secondary | SuccessBadge | Destructive | Outline

  /** `StatusBadge`: the switch on the lower-cased status, with `Outline` as the default branch. */
  function BadgeVariant(status: string): (v: Variant)
    ensures v != Default
    ensures v == Secondary <==> Lower(status) in {"new", "processing"}
    ensures v == SuccessBadge <==> Lower(status) in {"settled", "complete", "paid"}
    ensures v == Destructive <==> Lower(status) in {"expired", "invalid"}
    ensures v == Outline <==> Lower(status) !in {"new", "processing", "settled", "complete", "paid", "expired", "invalid"}
  {
    match Lower(status)
    case "new" => Secondary
    case "processing" => Secondary
    case "settled" => SuccessBadge
    case "complete" => SuccessBadge
    case "paid" => SuccessBadge
    case "expired" => Destructive
    case "invalid" => Destructive
    case _ => Outline
  }

  /** The message shown when loading fails. */
  const LoadFailed := "Failed to load invoices. Please try again later."
  /** The title of an invoice without a description. */
  const NoDescription := "No description"

  /** One invoice card: its key, title, badge, amount, currency and the link to its page. */
  datatype Card = Card(key: string, title: string, status: string, variant: Variant, amount: real, currency: string, href: string)

  /** What the list renders. */
  datatype View = Loading | Failed(message: string) | Empty | Cards(cards: seq<Card>)

  /** The card for one invoice. */
  function CardOf(invoice: Invoice): (c: Card)
    ensures c.key == invoice.id && c.href == "/invoice/" + invoice.id
    ensures c.title == OrElse(invoice.description, NoDescription)
    ensures c.variant == BadgeVariant(invoice.status)
    ensures c.status == invoice.status && c.amount == invoice.amount && c.currency == invoice.currency
  {
    Card(invoice.id, OrElse(invoice.description, NoDescription), invoice.status, BadgeVariant(invoice.status),
      invoice.amount, invoice.currency, "/invoice/" + invoice.id)
  }

  /** `invoices.map(...)`: one card per invoice, in order. */
  function CardsOf(invoices: seq<Invoice>): (cards: seq<Card>)
    ensures |cards| == |invoices|
    ensures forall k :: 0 <= k < |invoices| ==> cards[k] == CardOf(invoices[k])
  {
    if invoices == [] then [] else [CardOf(invoices[0])] + CardsOf(invoices[1..])
  }

  /** The render: loading first, then a truthy error, then the empty message, then the cards. */
  function Render(isLoading: bool, error: Option<string>, invoices: seq<Invoice>): (v: View)
    ensures v.Loading? <==> isLoading
    ensures v.Failed? <==> !isLoading && Truthy(error)
    ensures v.Failed? ==> v.message == error.value
    ensures v.Empty? <==> !isLoading && !Truthy(error) && invoices == []
    ensures v.Cards? ==> v.cards == CardsOf(invoices) && v.cards != []
  {
    if isLoading then Loading
    else if Truthy(error) then Failed(error.value)
    else if invoices == [] then Empty
    else Cards(CardsOf(invoices))
  }

  /** The list's state, updated by its load effect. */
  class InvoiceList {
    var invoices: seq<Invoice>
    var isLoading: bool
    var error: Option<string>

    /** First render: no invoices, loading, no error. */
    constructor ()
      ensures invoices == [] && isLoading && error == None
    {
      invoices := [];
      isLoading := true;
      error := None;
    }

    /** What is on screen. */
    function View(): View
      reads this
    {
      Render(isLoading, error, invoices)
    }

    /**
      `getInvoices()` settled with `fetched`: the list on success, the error
      message on failure, and loading ends either way.
     */
    method LoadSettled(fetched: Result<seq<Invoice>, Thrown>)
      modifies this
      ensures !isLoading
      ensures fetched.Success? ==> invoices == fetched.value && error == old(error)
      ensures fetched.Failure? ==> invoices == old(invoices) && error == Some(LoadFailed)
    {
      match fetched {
        case Success(data) =>
          invoices := data;
        case Failure(_) =>
          error := Some(LoadFailed);
      }
      isLoading := false;
    }
  }

  /**
    The list from mount to the settled load: the error card on failure, the
    empty card for an empty list, otherwise one card per invoice in order.
   */
  method Load(fetched: Result<seq<Invoice>, Thrown>) returns (view: View)
    ensures fetched.Failure? ==> view == Failed(LoadFailed)
    ensures fetched.Success? && fetched.value == [] ==> view == Empty
    ensures fetched.Success? && fetched.value != [] ==> view == Cards(CardsOf(fetched.value))
  {
    var list := new InvoiceList();
    list.LoadSettled(fetched);
    view := list.View();
  }
}
