/** The BTCPay Server Greenfield records, as far as this storefront reads or writes them. */
module Greenfield {
  import opened Values

  /** One entry of an invoice's `cryptoInfo` list. */
  datatype CryptoInfo = CryptoInfo(cryptoCode: Option<string>, due: Option<string>)

  /** An invoice record as the server sends it. */
  datatype InvoiceJson = InvoiceJson(
    id: string,
    storeId: string,
    amount: real,
    currency: string,
    status: string,
    createdTime: string,
    expirationTime: string,
    monitoringExpiration: string,
    metadata: Option<map<string, string>>,
    receiptUrl: Option<string>,
    checkoutLink: Option<string>,
    addresses: Option<map<string, string>>,
    cryptoInfo: Option<seq<CryptoInfo>>)

  /** A store record: its id, its name, and every other field it carries. */
  datatype StoreJson = StoreJson(id: string, name: string, otherFields: map<string, string>)

  /** The body of a create-invoice request: `{ amount, currency, metadata }`. */
  datatype NewInvoiceJson = NewInvoiceJson(amount: real, currency: string, metadata: map<string, string>)
}
