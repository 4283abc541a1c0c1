/** The storefront's own records (lib/types.ts). */
module Types {
  import opened Values

  /** An invoice as the pages show it; optional fields are `None` when the source leaves them undefined. */
  datatype Invoice = Invoice(
    id: string,
    storeId: string,
    amount: real,
    currency: string,
    status: string,
    createdTime: string,
    expirationTime: string,
    monitoringExpiration: string,
    description: Option<string>,
    receiptUrl: Option<string>,
    checkoutLink: Option<string>,
    paymentLink: Option<string>,
    bitcoinAddress: Option<string>,
    btcAmount: Option<string>)

  /** What the payment form asks the API client to create. */
  datatype CreateInvoiceParams = CreateInvoiceParams(amount: real, currency: string, description: Option<string>)
}
