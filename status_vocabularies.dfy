/**
  The storefront classifies invoice statuses in four places, each with its own
  vocabulary: the details page's polling sets and colour
  (components/invoice-details.tsx), the list's badge
  (components/invoices-list.tsx) and `checkPaymentStatus` (lib/btcpay.ts).
  The lemmas here state where they agree and where they do not.
 */
module StatusVocabularies {
  import opened Values
  import opened Text
  import Greenfield
  import InvoiceDetails
  import InvoicesList
  import Btcpay

  /** `paid` as `checkPaymentStatus` reports it for an invoice with this status. */
  function CheckPaid(inv: Greenfield.InvoiceJson): bool {
    Btcpay.CheckPaymentStatus(Success(inv)).value.paid
  }

  /** Each classifier of the details page and of the badge, read off the lower-cased status. */
  lemma Classified(status: string, lowered: string)
    requires Lower(status) == lowered
    ensures InvoiceDetails.IsPollable(status) == (lowered in InvoiceDetails.PollableStatuses)
    ensures InvoiceDetails.IsPaid(status) == (lowered in InvoiceDetails.PaidStatuses)
    ensures InvoiceDetails.StatusColor(status) ==
      if lowered in InvoiceDetails.PaidStatuses then InvoiceDetails.Green
      else if lowered in InvoiceDetails.FailedStatuses then InvoiceDetails.Destructive
      else InvoiceDetails.Amber
    ensures InvoicesList.BadgeVariant(status) ==
      if lowered in {"new", "processing"} then InvoicesList.Secondary
      else if lowered in {"settled", "complete", "paid"} then InvoicesList.SuccessBadge
      else if lowered in {"expired", "invalid"} then InvoicesList.Destructive
      else InvoicesList.Outline
  {
  }

  /**
    The details page polls "unconfirmed" and colours it amber like "new" and
    "processing", but the list's badge sends it to the default `Outline`.
   */
  lemma UnconfirmedPolledButOutlined(status: string)
    requires status == "unconfirmed"
    ensures InvoiceDetails.IsPollable(status) && InvoiceDetails.StatusColor(status) == InvoiceDetails.Amber
    ensures InvoicesList.BadgeVariant(status) == InvoicesList.Outline
  {
    assert Lower(status) == "unconfirmed" by {
      LowerOfLowerCase(status);
    }
    Classified(status, "unconfirmed");
  }

  /** "new" and "processing", polled and amber like "unconfirmed", get the `Secondary` badge. */
  lemma NewAndProcessingSecondary(status: string)
    requires status == "new" || status == "processing"
    ensures InvoiceDetails.IsPollable(status) && InvoiceDetails.StatusColor(status) == InvoiceDetails.Amber
    ensures InvoicesList.BadgeVariant(status) == InvoicesList.Secondary
  {
    assert Lower(status) == status by {
      LowerOfLowerCase(status);
    }
    Classified(status, status);
  }

  /**
    "Processing" is paid for `checkPaymentStatus` only: the details page
    still polls it, shows it amber and gives no payment notice, and the
    badge is `Secondary`.
   */
  lemma ProcessingPaidOnlyByCheck(inv: Greenfield.InvoiceJson)
    requires inv.status == "Processing"
    ensures CheckPaid(inv)
    ensures InvoiceDetails.IsPollable(inv.status) && !InvoiceDetails.IsPaid(inv.status)
    ensures InvoiceDetails.StatusColor(inv.status) == InvoiceDetails.Amber
    ensures InvoicesList.BadgeVariant(inv.status) == InvoicesList.Secondary
  {
    assert Lower(inv.status) == "processing" by {
      LowerInitialCapital("Processing", "processing");
    }
    Classified(inv.status, "processing");
    InvoiceDetails.StatusGroups(inv.status);
  }

  /**
    `checkPaymentStatus` compares case-sensitively: a lower-case "settled" is
    paid for the details page and the badge, but not for it.
   */
  lemma LowerCaseSettledNotPaidByCheck(inv: Greenfield.InvoiceJson)
    requires inv.status == "settled"
    ensures !CheckPaid(inv)
    ensures InvoiceDetails.IsPaid(inv.status) && InvoicesList.BadgeVariant(inv.status) == InvoicesList.SuccessBadge
  {
    assert Lower(inv.status) == "settled" by {
      LowerOfLowerCase(inv.status);
    }
    Classified(inv.status, "settled");
  }

  /** "Complete" and "Paid" are paid for the details page and the badge, never for `checkPaymentStatus`. */
  lemma CompleteAndPaidNotPaidByCheck(inv: Greenfield.InvoiceJson)
    requires inv.status == "Complete" || inv.status == "Paid"
    ensures !CheckPaid(inv)
    ensures InvoiceDetails.IsPaid(inv.status) && InvoicesList.BadgeVariant(inv.status) == InvoicesList.SuccessBadge
  {
    if inv.status == "Complete" {
      assert Lower(inv.status) == "complete" by {
        LowerInitialCapital("Complete", "complete");
      }
      Classified(inv.status, "complete");
    } else {
      assert Lower(inv.status) == "paid" by {
        LowerInitialCapital("Paid", "paid");
      }
      Classified(inv.status, "paid");
    }
  }

  /** "Settled" is paid for all three: `checkPaymentStatus`, the details page and the badge. */
  lemma SettledPaidEverywhere(inv: Greenfield.InvoiceJson)
    requires inv.status == "Settled"
    ensures CheckPaid(inv)
    ensures InvoiceDetails.IsPaid(inv.status) && InvoicesList.BadgeVariant(inv.status) == InvoicesList.SuccessBadge
  {
    assert Lower(inv.status) == "settled" by {
      LowerInitialCapital("Settled", "settled");
    }
    Classified(inv.status, "settled");
  }

  /**
    Where `checkPaymentStatus` says paid, the details page agrees exactly
    when the status is "Settled".
   */
  lemma CheckPaidAgreesOnlyOnSettled(inv: Greenfield.InvoiceJson)
    requires CheckPaid(inv)
    ensures InvoiceDetails.IsPaid(inv.status) <==> inv.status == "Settled"
  {
    if inv.status == "Settled" {
      SettledPaidEverywhere(inv);
    } else {
      assert inv.status == "Processing";
      ProcessingPaidOnlyByCheck(inv);
    }
  }

  /**
    For every status, the badge and the details colour agree on the paid and
    failed groups; they differ only in how they split the rest.
   */
  lemma BadgeAgreesWithColour(status: string)
    ensures InvoicesList.BadgeVariant(status) == InvoicesList.SuccessBadge <==> InvoiceDetails.StatusColor(status) == InvoiceDetails.Green
    ensures InvoicesList.BadgeVariant(status) == InvoicesList.Destructive <==> InvoiceDetails.StatusColor(status) == InvoiceDetails.Destructive
    ensures InvoiceDetails.StatusColor(status) == InvoiceDetails.Amber <==>
      InvoicesList.BadgeVariant(status) in {InvoicesList.Secondary, InvoicesList.Outline}
  {
  }

  /** The details page and the badge look only at the lower-cased status. */
  lemma ClassifiersSeeOnlyLowerCase(status: string)
    ensures InvoiceDetails.StatusColor(Lower(status)) == InvoiceDetails.StatusColor(status)
    ensures InvoiceDetails.IsPollable(Lower(status)) == InvoiceDetails.IsPollable(status)
    ensures InvoiceDetails.IsStop(Lower(status)) == InvoiceDetails.IsStop(status)
    ensures InvoicesList.BadgeVariant(Lower(status)) == InvoicesList.BadgeVariant(status)
  {
    LowerIdempotent(status);
  }
}
