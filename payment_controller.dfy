/** The payment controller (controllers/paymentController.js): paying from the
    wallet, opening a gateway order, and applying the gateway's verdict to the
    payment, the booking and the wallet. SHA-512 is a parameter; only the
    strings it is applied to are modelled. */
module PaymentController {
  import opened Common
  import opened BookingModel
  import opened Venue
  import opened PaymentModel
  import opened Store
  import opened SystemController
  import opened SweepLedger

  /** The hash function (SHA-512, hex-encoded). */
  type Sha512 = string -> string

  /** The merchant key and the two salts read from the configuration. */
  datatype PayUConfig = PayUConfig(merchantKey: string, saltV1: string, saltV2: string)

  /** The hash a demo client sends to skip verification. */
  const MockHash: string := "mock_hash_for_demo"
  const Success: string := "success"

  // ---------------------------------------------------------------------------
  // Method dispatch

  datatype Route = WalletRoute | GatewayRoute(gatewayMethod: PayMethod) | Unsupported

  /** The stored name of a payment method. */
  function MethodName(m: PayMethod): string {
    match m
    case WalletPay => "wallet"
    case Card => "card"
    case Upi => "upi"
    case Netbanking => "netbanking"
    case Cash => "cash"
  }

  /** `paymentMethod.toUpperCase()`. */
  function MethodLabel(m: PayMethod): string {
    match m
    case WalletPay => "WALLET"
    case Card => "CARD"
    case Upi => "UPI"
    case Netbanking => "NETBANKING"
    case Cash => "CASH"
  }

  /** `createPaymentOrder`'s dispatch on the requested method: the wallet, one of
      the three gateway methods, or a refusal. */
  function Dispatch(m: string): (route: Route)
    ensures route == WalletRoute <==> m == "wallet"
    ensures route.GatewayRoute? <==> m in {"card", "upi", "netbanking"}
    ensures route.GatewayRoute? ==> MethodName(route.gatewayMethod) == m && route.gatewayMethod != WalletPay
    ensures route == Unsupported <==> m !in {"wallet", "card", "upi", "netbanking"}
  {
    if m == "wallet" then WalletRoute
    else if m == "card" then GatewayRoute(Card)
    else if m == "upi" then GatewayRoute(Upi)
    else if m == "netbanking" then GatewayRoute(Netbanking)
    else Unsupported
  }

  // ---------------------------------------------------------------------------
  // Hash pre-images

  /** The 17 fields of the request hash: key, txnid, amount, productinfo,
      firstname, email, five empty UDFs, five empty reserved fields, salt. */
  function RequestFields(key: string, txnid: string, amount: string, productinfo: string, firstname: string,
                         email: string, salt: string): seq<string>
  {
    [key, txnid, amount, productinfo, firstname, email, "", "", "", "", "", "", "", "", "", "", salt]
  }

  function RequestPreImage(key: string, txnid: string, amount: string, productinfo: string, firstname: string,
                           email: string, salt: string): string
  {
    Join(RequestFields(key, txnid, amount, productinfo, firstname, email, salt), '|')
  }

  /** Splitting the request pre-image at `|` gives back its 17 fields, the ten
      in the middle empty, whenever no field itself holds a `|`. */
  lemma RequestLayout(key: string, txnid: string, amount: string, productinfo: string, firstname: string,
                      email: string, salt: string)
    requires '|' !in key && '|' !in txnid && '|' !in amount && '|' !in productinfo
    requires '|' !in firstname && '|' !in email && '|' !in salt
    ensures var parts := Split(RequestPreImage(key, txnid, amount, productinfo, firstname, email, salt), '|');
            |parts| == 17
            && parts[0] == key && parts[1] == txnid && parts[2] == amount && parts[3] == productinfo
            && parts[4] == firstname && parts[5] == email && parts[16] == salt
            && forall i :: 6 <= i < 16 ==> parts[i] == ""
  {
    SplitJoin(RequestFields(key, txnid, amount, productinfo, firstname, email, salt), '|');
  }

  /** `pattern` occurs in `s` starting at index `i`. */
  predicate OccursAt(s: string, pattern: string, i: int) {
    0 <= i && i + |pattern| <= |s| && s[i..i + |pattern|] == pattern
  }

  /** `productinfo.includes(pattern)`. */
  predicate Contains(s: string, pattern: string) {
    exists i | 0 <= i <= |s| - |pattern| :: OccursAt(s, pattern, i)
  }

  /** A product description naming a top-up is rewritten around the formatted amount. */
  function NormalizedInfo(productinfo: string, amount: string): string {
    if Contains(productinfo, "Wallet Top-up") then "Wallet Top-up - " + amount else productinfo
  }

  /** The top-up description the order builds is already in normal form. */
  lemma TopUpInfoNormal(amount: string)
    ensures NormalizedInfo("Wallet Top-up - " + amount, amount) == "Wallet Top-up - " + amount
  {
    var s := "Wallet Top-up - " + amount;
    assert OccursAt(s, "Wallet Top-up", 0);
  }

  datatype PayUHash = PayUHash(v1: string, v2: string, primary: string)

  /** `generatePayUHash`: the request hash under each salt; the first is the one sent.
      `amount` is the already formatted `toFixed(2)` text. */
  function GeneratePayUHash(sha: Sha512, key: string, txnid: string, amount: string, productinfo: string,
                            firstname: string, email: string, saltV1: string, saltV2: string): (h: PayUHash)
    ensures h.v1 == sha(RequestPreImage(key, txnid, amount, NormalizedInfo(productinfo, amount), firstname, email, saltV1))
    ensures h.v2 == sha(RequestPreImage(key, txnid, amount, NormalizedInfo(productinfo, amount), firstname, email, saltV2))
    ensures h.primary == h.v1
    ensures saltV1 == saltV2 ==> h.v1 == h.v2
  {
    var info := NormalizedInfo(productinfo, amount);
    var hash1 := sha(RequestPreImage(key, txnid, amount, info, firstname, email, saltV1));
    var hash2 := sha(RequestPreImage(key, txnid, amount, info, firstname, email, saltV2));
    PayUHash(hash1, hash2, hash1)
  }

  /** The two salted pre-images differ only in their last field. */
  lemma SaltsDifferOnlyLast(key: string, txnid: string, amount: string, productinfo: string, firstname: string,
                            email: string, saltV1: string, saltV2: string)
    requires '|' !in key && '|' !in txnid && '|' !in amount && '|' !in productinfo
    requires '|' !in firstname && '|' !in email && '|' !in saltV1 && '|' !in saltV2
    ensures var p1 := Split(RequestPreImage(key, txnid, amount, productinfo, firstname, email, saltV1), '|');
            var p2 := Split(RequestPreImage(key, txnid, amount, productinfo, firstname, email, saltV2), '|');
            |p1| == |p2| == 17 && p1[..16] == p2[..16] && (p1[16] == p2[16] <==> saltV1 == saltV2)
  {
    var f1 := RequestFields(key, txnid, amount, productinfo, firstname, email, saltV1);
    var f2 := RequestFields(key, txnid, amount, productinfo, firstname, email, saltV2);
    SplitJoin(f1, '|');
    SplitJoin(f2, '|');
    assert f1[..16] == f2[..16];
  }

  /** `x || ''` for an optional UDF. */
  function OrEmpty(s: Option<string>): string {
    if s.None? then "" else s.value
  }

  /** The 18 fields of the response hash, in the gateway's reverse order. */
  function ResponseFields(salt: string, resp: GatewayResponse, key: string): seq<string> {
    [salt, resp.status, "", "", "", "", "",
     OrEmpty(resp.udf5), OrEmpty(resp.udf4), OrEmpty(resp.udf3), OrEmpty(resp.udf2), OrEmpty(resp.udf1),
     resp.email, resp.firstname, resp.productinfo, resp.amount, resp.txnid, key]
  }

  function ResponsePreImage(cfg: PayUConfig, resp: GatewayResponse): string {
    Join(ResponseFields(cfg.saltV1, resp, cfg.merchantKey), '|')
  }

  /** Splitting the response pre-image gives back its 18 fields. */
  lemma ResponseLayout(cfg: PayUConfig, resp: GatewayResponse)
    requires forall i :: 0 <= i < 18 ==> '|' !in ResponseFields(cfg.saltV1, resp, cfg.merchantKey)[i]
    ensures var parts := Split(ResponsePreImage(cfg, resp), '|');
            |parts| == 18 && parts[0] == cfg.saltV1 && parts[1] == resp.status && parts[17] == cfg.merchantKey
            && parts[7] == OrEmpty(resp.udf5) && parts[11] == OrEmpty(resp.udf1)
            && parts[15] == resp.amount && parts[16] == resp.txnid
            && forall i :: 2 <= i < 7 ==> parts[i] == ""
  {
    ResponseSplit(cfg, resp);
  }

  lemma ResponseSplit(cfg: PayUConfig, resp: GatewayResponse)
    requires forall i :: 0 <= i < 18 ==> '|' !in ResponseFields(cfg.saltV1, resp, cfg.merchantKey)[i]
    ensures Split(ResponsePreImage(cfg, resp), '|') == ResponseFields(cfg.saltV1, resp, cfg.merchantKey)
  {
    SplitJoin(ResponseFields(cfg.saltV1, resp, cfg.merchantKey), '|');
  }

  /** The response passes verification: the mock hash, or a recomputed hash that matches. */
  predicate HashAccepted(sha: Sha512, cfg: PayUConfig, resp: GatewayResponse) {
    resp.hash == MockHash || sha(ResponsePreImage(cfg, resp)) == resp.hash
  }

  // ---------------------------------------------------------------------------
  // Gateway orders

  /** `TXN_<now>_<nonce>`, the order's transaction id. */
  function TxnId(now: nat, nonce: string): string {
    "TXN_" + NatToString(now) + "_" + nonce
  }

  /** Two orders share a transaction id only if they share both the clock
      reading and the nonce (the nonce is base-36 text, without `_`). */
  lemma TxnIdInjective(now1: nat, nonce1: string, now2: nat, nonce2: string)
    requires '_' !in nonce1 && '_' !in nonce2
    ensures TxnId(now1, nonce1) == TxnId(now2, nonce2) <==> now1 == now2 && nonce1 == nonce2
  {
    if TxnId(now1, nonce1) == TxnId(now2, nonce2) {
      TxnIdFields(now1, nonce1);
      TxnIdFields(now2, nonce2);
      NatToStringValue(now1);
      NatToStringValue(now2);
    }
  }

  lemma TxnIdFields(now: nat, nonce: string)
    requires '_' !in nonce
    ensures Split(TxnId(now, nonce), '_') == ["TXN", NatToString(now), nonce]
  {
    var digits := NatToString(now);
    assert '_' !in digits by {
      forall i | 0 <= i < |digits| ensures digits[i] != '_' { assert IsDigit(digits[i]); }
    }
    assert Join([digits, nonce], '_') == digits + "_" + nonce;
    assert ["TXN", digits, nonce][1..] == [digits, nonce];
    assert TxnId(now, nonce) == Join(["TXN", digits, nonce], '_');
    SplitJoin(["TXN", digits, nonce], '_');
  }

  /** A document id in text form; an absent id prints as `undefined`. */
  function IdText(id: Option<BookingId>): string {
    if id.None? then "undefined" else NatToString(id.value)
  }

  /** `x || fallback` for an optional text field of the user. */
  function OrDefault(s: Option<string>, fallback: string): string {
    if s.None? || s.value == "" then fallback else s.value
  }

  /** The product description sent to the gateway. */
  function ProductInfo(bookingId: Option<BookingId>, isExtension: bool, isWalletTopUp: bool, amount: string): string {
    if isExtension then "Extension Payment - " + IdText(bookingId)
    else if isWalletTopUp then "Wallet Top-up - " + amount
    else "Booking Payment - " + IdText(bookingId)
  }

  /** The user fields the gateway form carries. */
  datatype Payer = Payer(name: Option<string>, email: Option<string>, phone: Option<string>)

  datatype OrderParams = OrderParams(key: string, txnid: string, amount: string, productinfo: string,
                                     firstname: string, email: string, phone: string, hash: string)

  /** The gateway form of a new order, signed with the primary hash. */
  function OrderForm(sha: Sha512, cfg: PayUConfig, payer: Payer, txnid: string, amount: string,
                     bookingId: Option<BookingId>, isExtension: bool, isWalletTopUp: bool): (f: OrderParams)
    ensures f.txnid == txnid && f.amount == amount && f.key == cfg.merchantKey
    ensures f.firstname != "" && f.email != "" && f.phone != ""
    ensures f.hash == sha(RequestPreImage(cfg.merchantKey, txnid, amount, NormalizedInfo(f.productinfo, amount),
                                          f.firstname, f.email, cfg.saltV1))
  {
    var info := ProductInfo(bookingId, isExtension, isWalletTopUp, amount);
    var firstname := OrDefault(payer.name, "Customer");
    var email := OrDefault(payer.email, "customer@example.com");
    var hash := GeneratePayUHash(sha, cfg.merchantKey, txnid, amount, info, firstname, email, cfg.saltV1, cfg.saltV2);
    OrderParams(cfg.merchantKey, txnid, amount, info, firstname, email, OrDefault(payer.phone, "9999999999"), hash.primary)
  }

  /** A top-up order's signed description is the one it sends. */
  lemma TopUpFormSigned(sha: Sha512, cfg: PayUConfig, payer: Payer, txnid: string, amount: string,
                        bookingId: Option<BookingId>)
    ensures var f := OrderForm(sha, cfg, payer, txnid, amount, bookingId, false, true);
            f.productinfo == "Wallet Top-up - " + amount
            && f.hash == sha(RequestPreImage(cfg.merchantKey, txnid, amount, f.productinfo, f.firstname, f.email, cfg.saltV1))
  {
    TopUpInfoNormal(amount);
  }

  /** The pending payment recorded for a gateway order. */
  function GatewayPayment(customer: UserId, bookingId: Option<BookingId>, amount: real, m: PayMethod, txnid: string,
                          isExtension: bool, isWalletTopUp: bool): (p: Payment)
    ensures p.paymentStatus == Pending && p.paymentGateway == PayU && p.gatewayOrderId == Some(txnid)
    ensures p.transactionId.None? && p.paidAt.None? && p.gatewayResponse.None?
  {
    Payment(customer, bookingId, amount, m, PayU, None, Some(txnid), Pending, None, None, isExtension, isWalletTopUp)
  }

  // ---------------------------------------------------------------------------
  // Wallet ledger

  /** The part of a wallet's balance its ledger lines do not account for. */
  function Unrecorded(w: Wallet): real {
    w.balance - Net(w.transactions)
  }

  /** Paying `amount` out of the wallet, with its debit line. */
  function Debited(w: Wallet, amount: real, txnMethod: string, description: string, bookingId: Option<BookingId>)
    : (w': Wallet)
    ensures w'.customer == w.customer && w'.currency == w.currency
    ensures w'.balance == w.balance - amount
    ensures w'.transactions == w.transactions + [Txn(Debit, amount, txnMethod, description, bookingId)]
    ensures Unrecorded(w') == Unrecorded(w)
  {
    var line := Txn(Debit, amount, txnMethod, description, bookingId);
    NetAppend(w.transactions, line);
    w.(balance := w.balance - amount, transactions := w.transactions + [line])
  }

  /** Adding a gateway top-up of `amount`, with its credit line. */
  function Credited(w: Wallet, amount: real, description: string): (w': Wallet)
    ensures w'.customer == w.customer && w'.currency == w.currency
    ensures w'.balance == w.balance + amount
    ensures w'.transactions == w.transactions + [Txn(Credit, amount, "online", description, None)]
    ensures Unrecorded(w') == Unrecorded(w)
  {
    var line := Txn(Credit, amount, "online", description, None);
    NetAppend(w.transactions, line);
    w.(balance := w.balance + amount, transactions := w.transactions + [line])
  }

  /** Recording a gateway-paid extension: a debit line, the balance untouched. */
  function Recorded(w: Wallet, amount: real, description: string, bookingId: Option<BookingId>): (w': Wallet)
    ensures w'.customer == w.customer && w'.currency == w.currency
    ensures w'.balance == w.balance
    ensures w'.transactions == w.transactions + [Txn(Debit, amount, "online", description, bookingId)]
    ensures Unrecorded(w') == Unrecorded(w) + amount
  {
    var line := Txn(Debit, amount, "online", description, bookingId);
    NetAppend(w.transactions, line);
    w.(transactions := w.transactions + [line])
  }

  /** The customer's wallet, or a new empty one. */
  function WalletOf(wallets: map<UserId, Wallet>, customer: UserId): (w: Wallet)
    ensures customer !in wallets ==> w == EmptyWallet(customer) && Unrecorded(w) == 0.0
  {
    if customer in wallets then wallets[customer] else EmptyWallet(customer)
  }

  /** `booking?.cafe?.name || 'Unknown Cafe'`. */
  function CafeName(bookings: map<BookingId, Booking>, cafes: map<CafeId, Cafe>, id: BookingId): (name: string)
    ensures name != ""
  {
    if id in bookings && bookings[id].cafe in cafes && cafes[bookings[id].cafe].name != "" then
      cafes[bookings[id].cafe].name
    else "Unknown Cafe"
  }

  /** The `method` of a wallet debit line. */
  function WalletTxnMethod(isExtension: bool, isWalletTopUp: bool): (m: string)
    ensures m in {"extension", "topup", "booking"}
    ensures m == "extension" <==> isExtension
    ensures m == "topup" <==> !isExtension && isWalletTopUp
  {
    if isExtension then "extension" else if isWalletTopUp then "topup" else "booking"
  }

  function WalletTxnNote(isExtension: bool, isWalletTopUp: bool, cafeName: string): string {
    if isExtension then "Extension payment (from wallet) - " + cafeName
    else if isWalletTopUp then "Wallet top-up"
    else "Gaming session booking (from wallet) - " + cafeName
  }

  // ---------------------------------------------------------------------------
  // Settling a booking

  /** A booking once its payment is complete: an extension marks only the
      extension as paid; otherwise the booking is paid and becomes Booked. */
  function SettledBooking(b: Booking, isExtension: bool, m: PayMethod): (b': Booking)
    ensures isExtension ==> b'.extensionPaymentStatus == Some(Paid)
                            && b'.(extensionPaymentStatus := b.extensionPaymentStatus) == b
    ensures !isExtension ==> b'.status == Booked && b'.isPaid && b'.paymentStatus == Paid
                             && b'.paymentMethod == Some(m)
                             && b'.(status := b.status, isPaid := b.isPaid, paymentStatus := b.paymentStatus,
                                    paymentMethod := b.paymentMethod) == b
  {
    if isExtension then b.(extensionPaymentStatus := Some(Paid))
    else b.(paymentStatus := Paid, paymentMethod := Some(m), isPaid := true, status := Booked)
  }

  /** Settling the named booking if it exists. */
  function SettleIn(bookings: map<BookingId, Booking>, id: Option<BookingId>, isExtension: bool, m: PayMethod)
    : (after: map<BookingId, Booking>)
    ensures after.Keys == bookings.Keys
    ensures forall k :: k in bookings && Some(k) != id ==> after[k] == bookings[k]
    ensures id.Some? && id.value in bookings ==> after[id.value] == SettledBooking(bookings[id.value], isExtension, m)
  {
    if id.Some? && id.value in bookings then bookings[id.value := SettledBooking(bookings[id.value], isExtension, m)]
    else bookings
  }

  /** Settling an extension leaves the session as it was: `endSession` and the
      expiry sweep treat the booking exactly as before. */
  lemma SettledExtensionKeepsSession(bookings: map<BookingId, Booking>, cafes: map<CafeId, Cafe>, ownerId: UserId,
                                     id: BookingId, m: PayMethod, now: int)
    requires id in bookings
    ensures var after := SettleIn(bookings, Some(id), true, m);
            EndRefusal(after, cafes, ownerId, Some(id)) == EndRefusal(bookings, cafes, ownerId, Some(id))
            && (Expired(after[id], now) <==> Expired(bookings[id], now))
  {
    var after := SettleIn(bookings, Some(id), true, m);
    assert after[id].status == bookings[id].status && after[id].cafe == bookings[id].cafe;
  }

  /** The wallet branch of `createPaymentOrder` settles a booking as a full
      payment even when the payment is for an extension. An extension paid
      this way while the session runs turns the Active booking back to
      Booked, after which `endSession` refuses it and the sweep skips it. */
  lemma WalletOrderRevertsSession(bookings: map<BookingId, Booking>, cafes: map<CafeId, Cafe>, ownerId: UserId,
                                  id: BookingId, now: int)
    requires id in bookings && bookings[id].status == Active && ManagesCafe(cafes, ownerId, bookings[id].cafe)
    ensures var after := SettleIn(bookings, Some(id), false, WalletPay);
            EndRefusal(bookings, cafes, ownerId, Some(id)).None?
            && EndRefusal(after, cafes, ownerId, Some(id)) == Some(WrongStatus(Booked))
            && !Expired(after[id], now)
  {
    assert Booked[0] != Active[0];
  }

  // ---------------------------------------------------------------------------
  // createPaymentOrder and processWalletPayment

  datatype Order = Order(paymentId: PaymentId, form: Option<OrderParams>)

  /** The completed payment recorded for a wallet payment at `now`. */
  function WalletPayment(customer: UserId, bookingId: Option<BookingId>, amount: real, isExtension: bool,
                         isWalletTopUp: bool, now: int): (p: Payment)
    ensures p.paymentStatus == Paid && p.paymentMethod == WalletPay && p.paymentGateway == NoGateway
    ensures p.paidAt == Some(now) && p.gatewayOrderId.None? && p.transactionId.None?
  {
    Payment(customer, bookingId, amount, WalletPay, NoGateway, None, None, Paid, None, Some(now), isExtension, isWalletTopUp)
  }

  /** Paying `amount` from the customer's wallet, shared by both wallet
      handlers: the wallet must exist and hold at least `amount`. A completed
      payment is recorded, the wallet debited with one line, and, unless this
      is a top-up, the named booking settled (as an extension only when
      `settleExtension`). */
  method PayFromWallet(db: Db, customer: UserId, bookingId: Option<BookingId>, amount: real, isExtension: bool,
                       isWalletTopUp: bool, settleExtension: bool, now: int, newId: PaymentId)
    returns (r: Outcome<PaymentId>)
    requires db.Valid() && newId !in db.payments
    modifies db
    ensures db.Valid() && db.cafes == old(db.cafes)
    ensures customer !in old(db.wallets) ==> r == Fail(NotFound(WalletDoc)) && unchanged(db)
    ensures customer in old(db.wallets) && old(db.wallets)[customer].balance < amount ==>
              r == Fail(InsufficientBalance) && unchanged(db)
    ensures r.Ok? <==> customer in old(db.wallets) && old(db.wallets)[customer].balance >= amount
    ensures r.Ok? ==>
              var settle := bookingId.Some? && !isWalletTopUp;
              var cafeName := if settle then CafeName(old(db.bookings), old(db.cafes), bookingId.value) else "";
              r.value == newId
              && db.payments == old(db.payments)[newId := WalletPayment(customer, bookingId, amount, isExtension, isWalletTopUp, now)]
              && db.wallets == old(db.wallets)[customer := Debited(old(db.wallets)[customer], amount,
                                 WalletTxnMethod(isExtension, isWalletTopUp),
                                 WalletTxnNote(isExtension, isWalletTopUp, cafeName), bookingId)]
              && db.wallets[customer].balance >= 0.0
              && db.bookings == (if settle then SettleIn(old(db.bookings), bookingId, settleExtension, WalletPay)
                                 else old(db.bookings))
  {
    if customer !in db.wallets {
      return Fail(NotFound(WalletDoc));
    }
    var wallet := db.wallets[customer];
    if wallet.balance < amount {
      return Fail(InsufficientBalance);
    }
    db.payments := db.payments[newId := WalletPayment(customer, bookingId, amount, isExtension, isWalletTopUp, now)];
    var cafeName := "";
    if bookingId.Some? && !isWalletTopUp {
      cafeName := CafeName(db.bookings, db.cafes, bookingId.value);
    }
    wallet := Debited(wallet, amount, WalletTxnMethod(isExtension, isWalletTopUp),
                      WalletTxnNote(isExtension, isWalletTopUp, cafeName), bookingId);
    db.wallets := db.wallets[customer := wallet];
    if bookingId.Some? && !isWalletTopUp {
      db.bookings := SettleIn(db.bookings, bookingId, settleExtension, WalletPay);
    }
    return Ok(newId);
  }

  /** `createPaymentOrder`. The wallet branch pays from the wallet and settles
      the booking as a full payment, whatever `isExtension` says. The gateway
      branch records a pending payment under a new transaction id and returns
      the signed form. `amountText` is `parseFloat(amount).toFixed(2)`;
      `nonce` is the random base-36 part of the transaction id. */
  method CreatePaymentOrder(db: Db, customer: UserId, payer: Payer, bookingId: Option<BookingId>, amount: real,
                            amountText: string, paymentMethod: string, isExtension: bool, isWalletTopUp: bool,
                            sha: Sha512, cfg: PayUConfig, now: nat, nonce: string, newId: PaymentId)
    returns (r: Outcome<Order>)
    requires db.Valid() && newId !in db.payments
    modifies db
    ensures db.Valid() && db.cafes == old(db.cafes)
    ensures Dispatch(paymentMethod) == Unsupported ==> r == Fail(InvalidPaymentMethod) && unchanged(db)
    ensures Dispatch(paymentMethod) == WalletRoute && customer !in old(db.wallets) ==>
              r == Fail(NotFound(WalletDoc)) && unchanged(db)
    ensures Dispatch(paymentMethod) == WalletRoute && customer in old(db.wallets)
            && old(db.wallets)[customer].balance < amount ==>
              r == Fail(InsufficientBalance) && unchanged(db)
    ensures Dispatch(paymentMethod) == WalletRoute && customer in old(db.wallets)
            && old(db.wallets)[customer].balance >= amount ==>
              var settle := bookingId.Some? && !isWalletTopUp;
              var cafeName := if settle then CafeName(old(db.bookings), old(db.cafes), bookingId.value) else "";
              r == Ok(Order(newId, None))
              && db.payments == old(db.payments)[newId := WalletPayment(customer, bookingId, amount, isExtension, isWalletTopUp, now)]
              && db.wallets == old(db.wallets)[customer := Debited(old(db.wallets)[customer], amount,
                                 WalletTxnMethod(isExtension, isWalletTopUp),
                                 WalletTxnNote(isExtension, isWalletTopUp, cafeName), bookingId)]
              && db.wallets[customer].balance >= 0.0
              && db.bookings == (if settle then SettleIn(old(db.bookings), bookingId, false, WalletPay) else old(db.bookings))
    ensures Dispatch(paymentMethod).GatewayRoute? ==>
              var txnid := TxnId(now, nonce);
              r == Ok(Order(newId, Some(OrderForm(sha, cfg, payer, txnid, amountText, bookingId, isExtension, isWalletTopUp))))
              && db.payments == old(db.payments)[newId := GatewayPayment(customer, bookingId, amount,
                                   Dispatch(paymentMethod).gatewayMethod, txnid, isExtension, isWalletTopUp)]
              && db.wallets == old(db.wallets) && db.bookings == old(db.bookings)
  {
    var route := Dispatch(paymentMethod);
    if route == WalletRoute {
      var paid := PayFromWallet(db, customer, bookingId, amount, isExtension, isWalletTopUp, false, now, newId);
      if paid.Fail? {
        return Fail(paid.failure);
      }
      return Ok(Order(newId, None));
    }
    if route.GatewayRoute? {
      var txnid := TxnId(now, nonce);
      var form := OrderForm(sha, cfg, payer, txnid, amountText, bookingId, isExtension, isWalletTopUp);
      db.payments := db.payments[newId := GatewayPayment(customer, bookingId, amount, route.gatewayMethod, txnid,
                                                         isExtension, isWalletTopUp)];
      return Ok(Order(newId, Some(form)));
    }
    return Fail(InvalidPaymentMethod);
  }

  /** `createExtensionPayment`: the booking must exist; the request is then
      rebuilt as an extension order (`isExtension` set, no top-up) and handed to
      `createPaymentOrder`, whose wallet branch settles it as a full booking. */
  method CreateExtensionPayment(db: Db, customer: UserId, payer: Payer, bookingId: Option<BookingId>, amount: real,
                                amountText: string, paymentMethod: string,
                                sha: Sha512, cfg: PayUConfig, now: nat, nonce: string, newId: PaymentId)
    returns (r: Outcome<Order>)
    requires db.Valid() && newId !in db.payments
    modifies db
    ensures db.Valid() && db.cafes == old(db.cafes)
    ensures bookingId.None? || bookingId.value !in old(db.bookings) ==> r == Fail(NotFound(BookingDoc)) && unchanged(db)
    ensures bookingId.Some? && bookingId.value in old(db.bookings) && Dispatch(paymentMethod) == Unsupported ==>
              r == Fail(InvalidPaymentMethod) && unchanged(db)
    ensures bookingId.Some? && bookingId.value in old(db.bookings) && Dispatch(paymentMethod) == WalletRoute
            && customer in old(db.wallets) && old(db.wallets)[customer].balance >= amount ==>
              r == Ok(Order(newId, None))
              && db.payments == old(db.payments)[newId := WalletPayment(customer, bookingId, amount, true, false, now)]
              && db.wallets == old(db.wallets)[customer := Debited(old(db.wallets)[customer], amount, "extension",
                                 WalletTxnNote(true, false, CafeName(old(db.bookings), old(db.cafes), bookingId.value)),
                                 bookingId)]
              && db.bookings == SettleIn(old(db.bookings), bookingId, false, WalletPay)
    ensures bookingId.Some? && bookingId.value in old(db.bookings) && Dispatch(paymentMethod) == WalletRoute
            && (customer !in old(db.wallets) || old(db.wallets)[customer].balance < amount) ==>
              r.Fail? && unchanged(db)
    ensures bookingId.Some? && bookingId.value in old(db.bookings) && Dispatch(paymentMethod).GatewayRoute? ==>
              var txnid := TxnId(now, nonce);
              r == Ok(Order(newId, Some(OrderForm(sha, cfg, payer, txnid, amountText, bookingId, true, false))))
              && db.payments == old(db.payments)[newId := GatewayPayment(customer, bookingId, amount,
                                   Dispatch(paymentMethod).gatewayMethod, txnid, true, false)]
              && db.wallets == old(db.wallets) && db.bookings == old(db.bookings)
  {
    if bookingId.None? || bookingId.value !in db.bookings {
      return Fail(NotFound(BookingDoc));
    }
    r := CreatePaymentOrder(db, customer, payer, bookingId, amount, amountText, paymentMethod, true, false,
                            sha, cfg, now, nonce, newId);
  }

  /** `processWalletPayment`: a wallet payment for a booking or an extension
      (never a top-up); here an extension settles only the extension. */
  method ProcessWalletPayment(db: Db, customer: UserId, bookingId: Option<BookingId>, amount: real,
                              isExtension: bool, now: int, newId: PaymentId)
    returns (r: Outcome<PaymentId>)
    requires db.Valid() && newId !in db.payments
    modifies db
    ensures db.Valid() && db.cafes == old(db.cafes)
    ensures customer !in old(db.wallets) ==> r == Fail(NotFound(WalletDoc)) && unchanged(db)
    ensures customer in old(db.wallets) && old(db.wallets)[customer].balance < amount ==>
              r == Fail(InsufficientBalance) && unchanged(db)
    ensures r.Ok? <==> customer in old(db.wallets) && old(db.wallets)[customer].balance >= amount
    ensures r.Ok? ==>
              var cafeName := if bookingId.Some? then CafeName(old(db.bookings), old(db.cafes), bookingId.value) else "";
              r.value == newId
              && db.payments == old(db.payments)[newId := WalletPayment(customer, bookingId, amount, isExtension, false, now)]
              && db.wallets == old(db.wallets)[customer := Debited(old(db.wallets)[customer], amount,
                                 WalletTxnMethod(isExtension, false), WalletTxnNote(isExtension, false, cafeName), bookingId)]
              && db.wallets[customer].balance >= 0.0
              && db.bookings == SettleIn(old(db.bookings), bookingId, isExtension, WalletPay)
  {
    r := PayFromWallet(db, customer, bookingId, amount, isExtension, false, isExtension, now, newId);
  }

  // ---------------------------------------------------------------------------
  // verifyPayment and verifyWalletTopUp

  /** The payment once the gateway reports success. */
  function CompletedPayment(p: Payment, resp: GatewayResponse, now: int): (q: Payment)
    ensures q.paymentStatus == Paid && q.transactionId == Some(resp.txnid) && q.paidAt == Some(now)
    ensures q.gatewayResponse == Some(resp)
    ensures q.(paymentStatus := p.paymentStatus, transactionId := p.transactionId, paidAt := p.paidAt,
               gatewayResponse := p.gatewayResponse) == p
  {
    p.(paymentStatus := Paid, transactionId := Some(resp.txnid), gatewayResponse := Some(resp), paidAt := Some(now))
  }

  /** The payment once the gateway reports anything but success. */
  function FailedPayment(p: Payment, resp: GatewayResponse): (q: Payment)
    ensures q.paymentStatus == Failed && q.gatewayResponse == Some(resp)
    ensures q.(paymentStatus := p.paymentStatus, gatewayResponse := p.gatewayResponse) == p
  {
    p.(paymentStatus := Failed, gatewayResponse := Some(resp))
  }

  function TopUpNote(m: PayMethod): string {
    "Wallet top-up via " + MethodLabel(m) + " (PayU)"
  }

  function ExtensionNote(m: PayMethod, cafeName: string): string {
    "Extension payment via " + MethodLabel(m) + " (PayU) - " + cafeName
  }

  /** The wallets after `verifyPayment` completes `p`: a top-up credits the
      customer's wallet, an extension records a debit without moving the
      balance, anything else leaves the wallets alone. A missing wallet is
      created empty first. */
  function WalletsAfterVerify(wallets: map<UserId, Wallet>, bookings: map<BookingId, Booking>,
                              cafes: map<CafeId, Cafe>, p: Payment): (after: map<UserId, Wallet>)
    ensures forall u :: u in wallets && u != p.customer ==> u in after && after[u] == wallets[u]
    ensures !p.isWalletTopUp && !p.isExtension ==> after == wallets
    ensures p.isWalletTopUp || p.isExtension ==> after.Keys == wallets.Keys + {p.customer}
    ensures p.isWalletTopUp ==> after[p.customer].balance == WalletOf(wallets, p.customer).balance + p.amount
                                && Unrecorded(after[p.customer]) == Unrecorded(WalletOf(wallets, p.customer))
    ensures !p.isWalletTopUp && p.isExtension ==>
              after[p.customer].balance == WalletOf(wallets, p.customer).balance
              && Unrecorded(after[p.customer]) == Unrecorded(WalletOf(wallets, p.customer)) + p.amount
  {
    if p.isWalletTopUp || p.isExtension then
      var w := VerifiedWallet(WalletOf(wallets, p.customer), bookings, cafes, p);
      WalletUpdate(wallets, p.customer, w);
      wallets[p.customer := w]
    else wallets
  }

  /** Replacing one customer's wallet adds that key and keeps every other wallet. */
  lemma WalletUpdate(wallets: map<UserId, Wallet>, customer: UserId, w: Wallet)
    ensures wallets[customer := w].Keys == wallets.Keys + {customer} && wallets[customer := w][customer] == w
    ensures forall u :: u in wallets && u != customer ==> u in wallets[customer := w] && wallets[customer := w][u] == wallets[u]
  {
  }

  /** The customer's wallet after `verifyPayment`: credited for a top-up, a
      recorded debit for an extension. */
  function VerifiedWallet(w: Wallet, bookings: map<BookingId, Booking>, cafes: map<CafeId, Cafe>, p: Payment)
    : (w': Wallet)
    requires p.isWalletTopUp || p.isExtension
    ensures p.isWalletTopUp ==> w'.balance == w.balance + p.amount && Unrecorded(w') == Unrecorded(w)
    ensures !p.isWalletTopUp ==> w'.balance == w.balance && Unrecorded(w') == Unrecorded(w) + p.amount
  {
    if p.isWalletTopUp then
      Credited(w, p.amount, TopUpNote(p.paymentMethod))
    else
      var cafeName := if p.booking.Some? then CafeName(bookings, cafes, p.booking.value) else "";
      Recorded(w, p.amount, ExtensionNote(p.paymentMethod, cafeName), p.booking)
  }

  /** The bookings after `verifyPayment` completes `p`. */
  function BookingsAfterVerify(bookings: map<BookingId, Booking>, p: Payment): (after: map<BookingId, Booking>)
    ensures p.isWalletTopUp ==> after == bookings
    ensures !p.isWalletTopUp ==> after == SettleIn(bookings, p.booking, p.isExtension, p.paymentMethod)
  {
    if p.booking.Some? && !p.isWalletTopUp then SettleIn(bookings, p.booking, p.isExtension, p.paymentMethod)
    else bookings
  }

  /** The balance reported for a payment already processed: the wallet's, or 0 without one. */
  function BalanceOrZero(wallets: map<UserId, Wallet>, customer: UserId): real {
    if customer in wallets then wallets[customer].balance else 0.0
  }

  /** `verifyPayment`. The response must pass the hash check (or carry the mock
      hash). On success a payment not yet completed becomes completed, its
      booking is settled and the wallet credited or recorded; a payment already
      completed is left as it is. Any other status marks the payment failed.
      The result is the new balance for a top-up. */
  method VerifyPayment(db: Db, paymentId: PaymentId, resp: GatewayResponse, sha: Sha512, cfg: PayUConfig, now: int)
    returns (r: Outcome<Option<real>>)
    requires db.Valid()
    modifies db
    ensures db.Valid() && db.cafes == old(db.cafes)
    ensures paymentId !in old(db.payments) ==> r == Fail(NotFound(PaymentDoc)) && unchanged(db)
    ensures paymentId in old(db.payments) && !HashAccepted(sha, cfg, resp) ==>
              r == Fail(InvalidGatewayResponse) && unchanged(db)
    ensures paymentId in old(db.payments) && HashAccepted(sha, cfg, resp) && resp.status == Success
            && old(db.payments)[paymentId].paymentStatus == Paid ==>
              var p := old(db.payments)[paymentId];
              unchanged(db) && r == Ok(if p.isWalletTopUp then Some(BalanceOrZero(old(db.wallets), p.customer)) else None)
    ensures paymentId in old(db.payments) && HashAccepted(sha, cfg, resp) && resp.status == Success
            && old(db.payments)[paymentId].paymentStatus != Paid ==>
              var p := old(db.payments)[paymentId];
              db.payments == old(db.payments)[paymentId := CompletedPayment(p, resp, now)]
              && db.bookings == BookingsAfterVerify(old(db.bookings), p)
              && db.wallets == WalletsAfterVerify(old(db.wallets), old(db.bookings), old(db.cafes), p)
              && r == Ok(if p.isWalletTopUp then Some(db.wallets[p.customer].balance) else None)
    ensures paymentId in old(db.payments) && HashAccepted(sha, cfg, resp) && resp.status != Success ==>
              r == Fail(PaymentFailed)
              && db.payments == old(db.payments)[paymentId := FailedPayment(old(db.payments)[paymentId], resp)]
              && db.bookings == old(db.bookings) && db.wallets == old(db.wallets)
  {
    if paymentId !in db.payments {
      return Fail(NotFound(PaymentDoc));
    }
    var payment := db.payments[paymentId];
    if resp.hash != MockHash {
      var calculated := sha(ResponsePreImage(cfg, resp));
      if calculated != resp.hash {
        return Fail(InvalidGatewayResponse);
      }
    }
    if resp.status != Success {
      db.payments := db.payments[paymentId := FailedPayment(payment, resp)];
      return Fail(PaymentFailed);
    }
    if payment.paymentStatus == Paid {
      return Ok(if payment.isWalletTopUp then Some(BalanceOrZero(db.wallets, payment.customer)) else None);
    }
    var bookings0 := db.bookings;
    db.payments := db.payments[paymentId := CompletedPayment(payment, resp, now)];
    db.bookings := BookingsAfterVerify(db.bookings, payment);
    db.wallets := WalletsAfterVerify(db.wallets, bookings0, db.cafes, payment);
    return Ok(if payment.isWalletTopUp then Some(db.wallets[payment.customer].balance) else None);
  }

  /** The customer's wallet after a verified top-up of `p`. */
  function ToppedUp(wallets: map<UserId, Wallet>, p: Payment): (after: map<UserId, Wallet>)
    ensures after.Keys == wallets.Keys + {p.customer}
    ensures forall u :: u in wallets && u != p.customer ==> after[u] == wallets[u]
    ensures after[p.customer].balance == WalletOf(wallets, p.customer).balance + p.amount
    ensures Unrecorded(after[p.customer]) == Unrecorded(WalletOf(wallets, p.customer))
  {
    wallets[p.customer := Credited(WalletOf(wallets, p.customer), p.amount, TopUpNote(p.paymentMethod))]
  }

  /** `verifyWalletTopUp`: as `verifyPayment`, but success always credits the
      wallet and never touches a booking; the result is the balance. */
  method VerifyWalletTopUp(db: Db, paymentId: PaymentId, resp: GatewayResponse, sha: Sha512, cfg: PayUConfig, now: int)
    returns (r: Outcome<real>)
    requires db.Valid()
    modifies db
    ensures db.Valid() && db.cafes == old(db.cafes) && db.bookings == old(db.bookings)
    ensures paymentId !in old(db.payments) ==> r == Fail(NotFound(PaymentDoc)) && unchanged(db)
    ensures paymentId in old(db.payments) && !HashAccepted(sha, cfg, resp) ==>
              r == Fail(InvalidGatewayResponse) && unchanged(db)
    ensures paymentId in old(db.payments) && HashAccepted(sha, cfg, resp) && resp.status == Success
            && old(db.payments)[paymentId].paymentStatus == Paid ==>
              unchanged(db) && r == Ok(BalanceOrZero(old(db.wallets), old(db.payments)[paymentId].customer))
    ensures paymentId in old(db.payments) && HashAccepted(sha, cfg, resp) && resp.status == Success
            && old(db.payments)[paymentId].paymentStatus != Paid ==>
              var p := old(db.payments)[paymentId];
              db.payments == old(db.payments)[paymentId := CompletedPayment(p, resp, now)]
              && db.wallets == ToppedUp(old(db.wallets), p)
              && r == Ok(db.wallets[p.customer].balance)
    ensures paymentId in old(db.payments) && HashAccepted(sha, cfg, resp) && resp.status != Success ==>
              r == Fail(PaymentFailed)
              && db.payments == old(db.payments)[paymentId := FailedPayment(old(db.payments)[paymentId], resp)]
              && db.wallets == old(db.wallets)
  {
    if paymentId !in db.payments {
      return Fail(NotFound(PaymentDoc));
    }
    var payment := db.payments[paymentId];
    if resp.hash != MockHash {
      var calculated := sha(ResponsePreImage(cfg, resp));
      if calculated != resp.hash {
        return Fail(InvalidGatewayResponse);
      }
    }
    if resp.status != Success {
      db.payments := db.payments[paymentId := FailedPayment(payment, resp)];
      return Fail(PaymentFailed);
    }
    if payment.paymentStatus == Paid {
      return Ok(BalanceOrZero(db.wallets, payment.customer));
    }
    db.payments := db.payments[paymentId := CompletedPayment(payment, resp, now)];
    db.wallets := ToppedUp(db.wallets, payment);
    return Ok(db.wallets[payment.customer].balance);
  }
}
