/** The wallet and payment documents (models/walletModel.js,
    models/paymentModel.js) and the gateway's response record. */
module PaymentModel {
  import opened Common
  import opened BookingModel

  datatype TxnKind = Credit | Debit

  /** One wallet ledger line; `txnMethod` (the `method` field) is free text ('online', 'extension', 'topup', 'booking', ...). */
  datatype Txn = Txn(kind: TxnKind, amount: real, txnMethod: string, description: string, bookingId: Option<BookingId>)

  datatype Wallet = Wallet(customer: UserId, balance: real, currency: string, transactions: seq<Txn>)

  datatype Gateway = PayU | NoGateway

  /** The fields of the gateway's callback the controllers read. Absent UDFs are `None`. */
  datatype GatewayResponse = GatewayResponse(
    hash: string, status: string,
    udf1: Option<string>, udf2: Option<string>, udf3: Option<string>, udf4: Option<string>, udf5: Option<string>,
    email: string, firstname: string, productinfo: string, amount: string, txnid: string)

  datatype Payment = Payment(
    customer: UserId,
    booking: Option<BookingId>,
    amount: real,
    paymentMethod: PayMethod,
    paymentGateway: Gateway,
    transactionId: Option<string>,
    gatewayOrderId: Option<string>,
    paymentStatus: PaymentState,
    gatewayResponse: Option<GatewayResponse>,
    paidAt: Option<int>,
    isExtension: bool,
    isWalletTopUp: bool)

  /** `new Wallet({ customer, balance: 0 })` with the schema's defaults. */
  function EmptyWallet(customer: UserId): (w: Wallet)
    ensures w.customer == customer && w.balance == 0.0 && w.transactions == [] && w.currency == "INR"
  {
    Wallet(customer, 0.0, "INR", [])
  }

  /** The net of a list of ledger lines: credits minus debits. */
  function Net(txns: seq<Txn>): real {
    if txns == [] then 0.0
    else Net(txns[..|txns| - 1]) + (if txns[|txns| - 1].kind == Credit then txns[|txns| - 1].amount else -txns[|txns| - 1].amount)
  }

  /** Appending one line moves the net by that line's signed amount. */
  lemma NetAppend(txns: seq<Txn>, t: Txn)
    ensures Net(txns + [t]) == Net(txns) + (if t.kind == Credit then t.amount else -t.amount)
  {
    assert (txns + [t])[..|txns + [t]| - 1] == txns;
  }
}
