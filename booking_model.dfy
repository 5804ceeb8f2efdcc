/** The booking record (models/bookingModel.js): its fields, the values its
    enumerations allow, its defaults and its field validators. */
module BookingModel {
  import opened Common

  // The status labels the controllers read and write.
  const PendingPayment: string := "Pending Payment"
  const Booked: string := "Booked"
  const Confirmed: string := "Confirmed"
  const Active: string := "Active"
  const Completed: string := "Completed"
  const Cancelled: string := "Cancelled"
  /** Not in the enumeration, yet compared against by the session controller. */
  const PendingAssignment: string := "Pending Assignment"

  /** The values the schema's `status` enumeration allows. */
  const StatusEnum: seq<string> := [PendingPayment, Booked, Confirmed, Active, Completed, Cancelled]

  /** `paymentStatus` of bookings and payments (`Paid` is the stored value 'completed');
      `extensionPaymentStatus` excludes Refunded. */
  datatype PaymentState = Pending | Paid | Failed | Refunded

  datatype PayMethod = WalletPay | Card | Upi | Netbanking | Cash

  /** One requested room/system-type combination of a booking; the schema gives
      `numberOfSystems` the default 1 (models/bookingModel.js:46-50), but no
      handler of this model builds a line item. */
  datatype LineItem = LineItem(roomType: string, systemType: string, numberOfSystems: int, pricePerHour: real)

  /** A concrete system bound to a booking; `roomType` is absent when the writer left it out. */
  datatype AssignedSystem = AssignedSystem(systemId: string, roomType: Option<string>)

  /** A booking document. Times are millisecond timestamps, durations hours, money rupees. */
  datatype Booking = Booking(
    customer: Option<UserId>,
    walkInCustomerName: Option<string>,
    cafe: CafeId,
    owner: UserId,
    systemsBooked: seq<LineItem>,
    roomType: Option<string>,          // legacy single-item shape
    systemType: Option<string>,
    numberOfSystems: int,
    bookingDate: int,
    startTime: string,
    duration: real,
    totalPrice: real,
    status: string,
    assignedSystems: seq<AssignedSystem>,
    sessionStartTime: Option<int>,
    sessionEndTime: Option<int>,
    permanentlyCancelled: bool,
    otp: Option<string>,
    friendCount: int,
    extendedTime: real,
    paymentStatus: PaymentState,
    paymentMethod: Option<PayMethod>,
    isPaid: bool,
    extensionPaymentStatus: Option<PaymentState>,
    extensionPaymentAmount: real)

  /** `duration` validator `v % 0.5 === 0`: whole half-hours. */
  predicate DurationValid(v: real) {
    (2.0 * v).Floor as real == 2.0 * v
  }

  function HalfHours(k: int): real {
    k as real / 2.0
  }

  /** A duration passes the validator exactly when it is a whole number of half-hours. */
  lemma DurationValidIff(v: real)
    ensures DurationValid(v) <==> exists k: int :: HalfHours(k) == v
  {
    if DurationValid(v) {
      assert HalfHours((2.0 * v).Floor) == v;
    }
  }

  predicate StatusValid(s: string) {
    s in StatusEnum
  }

  /** `otp` validator `!v || /^\d{6}$/.test(v)`: absent, empty, or six decimal digits. */
  predicate OtpValid(v: Option<string>) {
    v.None? || v.value == "" || (|v.value| == 6 && AllDigits(v.value))
  }

  predicate ExtensionStatusValid(s: Option<PaymentState>) {
    s.None? || s.value != Refunded
  }

  /** Every validator and `min` bound the schema declares. */
  predicate SchemaValid(b: Booking) {
    DurationValid(b.duration)
    && StatusValid(b.status)
    && OtpValid(b.otp)
    && b.friendCount >= 1
    && b.extendedTime >= 0.0
    && ExtensionStatusValid(b.extensionPaymentStatus)
  }

  /** `new Booking({...})` from the fields `createBooking` supplies: every other
      field takes its schema default. */
  function NewBooking(customer: UserId, cafe: CafeId, owner: UserId, roomType: string, systemType: string,
                      bookingDate: int, startTime: string, duration: real, totalPrice: real): (b: Booking)
    ensures b.status == PendingPayment && b.paymentStatus == Pending && !b.isPaid
    ensures b.friendCount == 1 && b.extendedTime == 0.0 && b.numberOfSystems == 1
    ensures b.systemsBooked == [] && b.assignedSystems == [] && b.otp.None?
    ensures b.extensionPaymentStatus.None? && b.paymentMethod.None? && !b.permanentlyCancelled
    ensures b.customer == Some(customer) && b.cafe == cafe && b.owner == owner
    ensures b.roomType == Some(roomType) && b.systemType == Some(systemType)
    ensures b.bookingDate == bookingDate && b.startTime == startTime
    ensures b.duration == duration && b.totalPrice == totalPrice
    ensures SchemaValid(b) <==> DurationValid(duration)
  {
    Booking(Some(customer), None, cafe, owner, [], Some(roomType), Some(systemType), 1,
            bookingDate, startTime, duration, totalPrice, PendingPayment, [], None, None, false,
            None, 1, 0.0, Pending, None, false, None, 0.0)
  }

  /** The schema's defaults satisfy its own validators. */
  lemma DefaultsValid()
    ensures StatusValid(PendingPayment) && OtpValid(None) && ExtensionStatusValid(None)
    ensures !StatusValid(PendingAssignment)
  {
  }
}
