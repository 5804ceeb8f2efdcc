/** The document store the controllers load from and save to: one map per
    collection, keyed by document id (wallets by their customer). A
    controller's in-memory edits reach the store only where it saves. */
module Store {
  import opened Common
  import opened BookingModel
  import opened Venue
  import opened PaymentModel

  class Db {
    var cafes: map<CafeId, Cafe>
    var bookings: map<BookingId, Booking>
    var wallets: map<UserId, Wallet>
    var payments: map<PaymentId, Payment>

    /** Each wallet is filed under its own customer. */
    ghost predicate Valid()
      reads this
    {
      forall u :: u in wallets ==> wallets[u].customer == u
    }

    constructor ()
      ensures Valid()
      ensures cafes == map[] && bookings == map[] && wallets == map[] && payments == map[]
    {
      cafes := map[];
      bookings := map[];
      wallets := map[];
      payments := map[];
    }
  }
}
