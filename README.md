# Gaming cafe backend: sessions, sweep, bookings and payments

This project models the core of a gaming-cafe booking backend.

- **Owners** start sessions on concrete systems (PCs, consoles) of their cafe's rooms. They end sessions, put systems under maintenance and extend running sessions.
- **Expiry sweep.** A once-a-minute job completes expired sessions and frees their systems.
- **Customers** create bookings priced from the cafe's current rates, and pay for them from a wallet or through the PayU gateway.
- **Gateway verdicts** are checked against a salted SHA-512 of the response before they touch the payment, the booking or the wallet.

## How the model is laid out

- **Documents.** The store (`Store.Db`) is a class with one map per collection: cafes, bookings, wallets and payments.
  - Every handler is a method that `modifies` it.
  - A handler checks the request in the order the source does, and writes only where the source saves.
  - Each handler's contract states its new state through a specification function, and the lemmas are about those functions.
- **Loops.** Each loop of the source is a method with invariants, proved equal to a declarative function. This covers the nested `forEach` of starting and ending a session, the maintenance search, the extension price sum, the sweep's loops and the booking-code loops.
- **Document shapes** follow the controllers, not the cafe schema. Systems carry `systemId`, `status`, `pricePerHour` and `activeBooking`; rooms carry `roomType` and an optional `name`.
- **Statuses** are strings where the source assigns arbitrary strings. The payment enumerations are datatypes.
- **Numbers.** Money and hours are `real` and timestamps are integer milliseconds. Document ids are naturals, and a new document's id is a parameter that the caller guarantees is fresh.
- **Parameters** replace everything outside the program:
  - random draws;
  - the clock;
  - the calendar that places a booking's start label on its date;
  - SHA-512;
  - `toFixed(2)` text;
  - which saves fail during the sweep.

## What the model shows about the source

- **Sweep versus started sessions.** `startSession` writes the system status `In Session`, but the sweep frees only systems whose status is `Active`. The sweep also matches assigned systems against `room.name` using the `roomType` field, which `startSession` never writes. So even for a booking that carries a `sessionEndTime`, the systems `startSession` occupied stay `In Session` after the sweep (`SweepLedger.SweepKeepsStartedSessions`). Moreover the sweep selects only `Active` bookings that already carry a `sessionEndTime`, and no handler of this core writes one: `startSession` sets only the status and the assignment, so a session it starts is never selected by the sweep at all (`SweepLedger.StartedNeverSwept`).
- **Bookings from `createBooking` never start.** Such a booking carries no line items, so `startSession`, which needs as many system ids as the line items ask for and at least one, refuses it whatever its status (`BookingController.CreatedBookingNeverStarts`).
- **Unavailable systems.** When several named systems are unavailable, `startSession` reports the last one it visits (`SessionLedger.OccupySystems`).
- **`extendBooking` itself accepts any `hoursToAdd`.** The handler makes no check; only the save-time `duration` validator (whole half-hours, models/bookingModel.js:83-88, not enforced by this model) would reject an extension that leaves the duration off the half-hour grid. A negative value on the grid shortens the booking, and extending by `-h` undoes extending by `h` (`BookingController.ExtendByNegativeUndoes`). By contrast, `extendSystemSession` requires a positive value.
- **Mock hash.** A response carrying the mock hash `mock_hash_for_demo` skips the hash check in both verification handlers (`PaymentController.VerifyPayment`).
- **Extension records.** A gateway-paid extension records a debit without lowering the balance. Each such record therefore widens the gap between a wallet's balance and the net of its ledger lines by the amount; every other wallet step keeps that gap (`PaymentController.Recorded`, `PaymentController.Debited`, `PaymentController.Credited`).

## Model

| member | source | states |
|---|---|---|
| SessionLedger.OccupyRooms | controllers/systemController.js:41-51 | the layout is kept; every system whose id is named becomes `In Session` with the booking as back-reference; every other system is unchanged |
| SessionLedger.OccupySystems | controllers/systemController.js:40-51 | the nested pass computes exactly `OccupyRooms`, and its error is the last named system that was not `Available` |
| SessionLedger.OccupyInRoom | controllers/systemController.js:42-50 | one room's pass flips the named systems and reports the last unavailable one |
| SessionLedger.UnavailableMembers | controllers/systemController.js:43-46 | an id is reported unavailable exactly when some named system with that id is not `Available` |
| SessionLedger.NoneUnavailable | controllers/systemController.js:53-57 | nothing is reported exactly when every named system is `Available` |
| SystemController.StartGuards | controllers/systemController.js:15-57 | a start goes ahead exactly when both inputs are present and the id list is non-empty, the booking exists, the owner manages its cafe, its status is `Pending Assignment` or `Booked`, the id count equals the sum of `numberOfSystems`, and every named system is `Available` |
| SystemController.StartSession | controllers/systemController.js:10-65 | a refusal returns the first failing check in source order and changes nothing; success marks the booking `Active`, records `assignedSystems` as the ids in order (without room type), and occupies the named systems; nothing else changes |
| SystemController.AssignedIdsFrom | controllers/systemController.js:61 | the recorded assignment lists exactly the requested ids, in order, each without a room type |
| SessionLedger.ReleaseRooms | controllers/systemController.js:109-119 | the layout is kept; exactly the listed systems become `Available` with no back-reference; all others are unchanged |
| SessionLedger.ReleaseSystems | controllers/systemController.js:110-118 | the nested release pass computes exactly `ReleaseRooms` |
| SessionLedger.ReleaseUndoesOccupy | controllers/systemController.js:41-119 | on systems that were free, releasing the occupied ids restores the rooms exactly |
| SystemController.EndSession | controllers/systemController.js:85-125 | the id must be present, the booking must exist, its cafe must be the owner's and its status `Active`, otherwise nothing changes; success releases the assigned systems (none when the list is empty) and marks the booking `Completed` |
| SystemController.EndUndoesStart | controllers/systemController.js:41-119 | ending a session started on free systems returns the cafe's rooms to their state before the start |
| SessionLedger.FindFrom | controllers/systemController.js:160-167 | the result is the first slot, in room order then system order, holding the id; none when no system has it |
| SessionLedger.LocateSystem | controllers/systemController.js:160-167 | the loop with `break` finds exactly `FindSystem` |
| SessionLedger.SetStatus | controllers/systemController.js:177 | only the status of the one located system changes |
| SessionLedger.Maintain | controllers/systemController.js:160-177 | a missing id gives NotFound exactly when no system has it; SessionInProgress exactly when the first match is `In Session`; no other refusal; success keeps the layout, gives the first match the new status with every other field kept, and leaves every other system unchanged |
| SessionLedger.MaintenanceRoundTrip | controllers/systemController.js:151-177 | taking an `Available` system under maintenance and back restores the rooms (proved from `Maintain`'s contract) |
| SystemController.UpdateSystemMaintenanceStatus | controllers/systemController.js:145-178 | InvalidStatusValue exactly when the status is not one of the two allowed values; NotFound of the cafe exactly when the status is allowed and the owner has no cafe; otherwise the outcome is `Maintain`'s on one of the owner's cafes: success naming that cafe, or `Maintain`'s refusal; any refusal changes nothing; success changes only that cafe's rooms, as `Maintain` gives them |
| SessionLedger.ExtensionPriceAdds | controllers/systemController.js:307-315 | the price of two extensions is the price of one extension by their sum |
| SessionLedger.PriceToAdd | controllers/systemController.js:307-315 | the loop's sum is `ExtensionPrice`: Σ numberOfSystems × pricePerHour × hours over the items whose room and system type resolve, skipping the others |
| SystemController.ExtendTwice | controllers/systemController.js:317-318 | extending twice equals extending once by the sum, for both duration and price |
| SystemController.ExtendSystemSession | controllers/systemController.js:280-320 | `hoursToAdd` must be present and positive; the booking must exist, belong to the owner and be `Active`, and its cafe must exist, otherwise nothing changes; success adds the hours to `duration` and the extension price to `totalPrice` and changes nothing else |
| TimeLabel.TimeToHour | controllers/systemController.js:193-194 | a missing or empty label gives hour 0 |
| TimeLabel.PmHour | controllers/systemController.js:195-199 | "h:mm PM" with an hour field other than "12" gives h + 12 |
| TimeLabel.AfternoonHour | controllers/systemController.js:195-199 | for h in 1..11, "h:mm PM" gives h + 12 |
| TimeLabel.AmHour | controllers/systemController.js:195-199 | "h:mm AM" with an hour field other than "12" gives h |
| TimeLabel.NoonHour | controllers/systemController.js:197-199 | "12:mm PM" gives 12 |
| TimeLabel.MidnightHour | controllers/systemController.js:197-199 | "12:mm AM" gives 0 |
| TimeLabel.SplitLabel | controllers/systemController.js:195-196 | a label "hh:mm XX" splits into its hour field and its AM/PM field |
| TimeLabel.ParseDigits | controllers/systemController.js:199 | `parseInt` of a run of digits is its value |
| SystemController.SessionEnd | controllers/systemController.js:251 | the end lies `duration` hours after the start, and not before it when the duration is non-negative |
| SystemController.RemainingTime | controllers/systemController.js:254 | never negative; zero exactly once the end has passed; otherwise now plus the remainder is the end |
| SystemController.RemainingShrinks | controllers/systemController.js:254 | as the clock advances the remaining time never grows, and it falls by at most the elapsed time |
| SystemController.CustomerName | controllers/systemController.js:242 | a non-empty walk-in name wins; otherwise a registered customer gives no name and no customer gives "Customer" |
| SystemController.ViewOf | controllers/systemController.js:229-253 | id, type and status are copied; session fields are filled exactly for an `In Session` system with a back-reference; an invalid start date fails the view |
| SystemController.ViewRoom | controllers/systemController.js:228-259 | one view per system in order; it fails exactly when some system's view fails |
| SystemController.SessionsOrder | controllers/systemController.js:256 | the session list holds exactly the views that have an active booking |
| SystemController.GetSystemAvailability | controllers/systemController.js:207-266 | a cafe the owner does not manage gives NotFound; otherwise the result has the cafe's room list and the views of all its systems; nothing is written |
| SweepLedger.CompletedBookingsShape | services/cronService.js:72-77 | every booking is kept; exactly those completed change, and only their status, to `Completed` |
| SweepLedger.Resolve | services/cronService.js:87-89 | an assigned entry resolves to a system with its id in the first room whose name equals the entry's room type |
| SweepLedger.FreeSlots | services/cronService.js:90-93 | the layout is kept; a targeted system whose status is `Active` becomes `Available` with no back-reference; every other system is unchanged |
| SweepLedger.FreeSlotsTwice | services/cronService.js:86-99 | freeing in two passes equals one pass over both slot sets |
| SweepLedger.FreeAssigned | services/cronService.js:85-100 | the inner loop frees exactly the booking's resolved `Active` systems, and reports an update exactly when one of them was `Active` |
| SweepLedger.FreedCafesShape | services/cronService.js:80-106 | every cafe keeps its owner, name and layout; a cafe's systems change only when they are resolved `Active` targets of a completed booking |
| SweepLedger.SweepNothing | services/cronService.js:62-65 | with nothing expired, the sweep changes nothing |
| SweepLedger.SweepLeavesFailed | services/cronService.js:57-77 | afterwards the only bookings still selected are those whose save failed |
| SweepLedger.SweepIdempotent | services/cronService.js:57-113 | a second sweep at the same instant, after one in which every save succeeded, changes nothing |
| SweepLedger.SweepKeepsStartedSessions | services/cronService.js:87-93 | the sweep never frees a system that `startSession` put `In Session` |
| SweepLedger.StartedNeverSwept | services/cronService.js:57-60 | a booking without `sessionEndTime`, once marked `Active` with its systems recorded as `startSession` does, is never selected by the sweep and is left as it is, at every clock reading |
| Cron.CronService.Start | services/cronService.js:18-34 | while running it does nothing; otherwise it schedules the every-minute UTC job and sets the service running |
| Cron.CronService.Stop | services/cronService.js:39-46 | with a job it clears the job and the running flag; without one it does nothing |
| Cron.CronService.GetStatus | services/cronService.js:133-138 | under the service invariant (a job exists exactly while running), the status reports a next run exactly when it reports running; the flag is the service's, and the next run is "Every minute" |
| Cron.CronService.SyncExpiredSessions | services/cronService.js:51-120 | every `Active` booking whose end time has passed is completed unless its save fails; its cafe's resolved `Active` systems are freed unless that save fails; the count is the number completed; wallets and payments are untouched |
| Cron.SweepBooking | services/cronService.js:73-112 | one iteration moves the booking into the completed set and its cafe into the freed set, and counts it when its save succeeded |
| Cron.CountStep | services/cronService.js:77 | the count grows by one exactly for a booking whose save succeeded |
| BookingController.BuildBooking | controllers/bookingController.js:12-50 | refuses a missing cafe (NotFound of the cafe), then a missing room type (NotFound of the room), then, in an existing room, a missing system type (NotFound of the system); success prices the booking at duration × the rate of the first matching system, and fills the owner, the fields given and the defaults |
| Venue.PriceOf | controllers/bookingController.js:21-35 | a price exists exactly when the first room of the type holds a system of the type; it is that room's first such system's rate |
| BookingController.CreateBooking | controllers/bookingController.js:9-53 | a refused build stores nothing; otherwise the built booking is stored under the new id and nothing else changes |
| BookingController.CreatedBookingNeverStarts | controllers/bookingController.js:40-50 | a booking with no line items is refused by `startSession`, by a count mismatch once the earlier checks pass |
| BookingController.OwnerBookings | controllers/bookingController.js:68-81 | a missing cafe gives NotFound and another owner NotAuthorized; otherwise the answer holds exactly the bookings of that cafe, unchanged |
| BookingController.UpdateBookingStatus | controllers/bookingController.js:87-102 | a missing booking gives NotFound and another owner NotAuthorized, with no change; otherwise only that booking's status changes, to the value given |
| BookingController.LegacyRate | controllers/bookingController.js:132-138 | a booking without its own room or system type has no rate; otherwise the rate is `PriceOf` its types |
| BookingController.ExtendedBy | controllers/bookingController.js:142-145 | duration grows by the hours and price by hours × rate; nothing else changes |
| BookingController.ExtendBooking | controllers/bookingController.js:113-152 | a missing booking gives NotFound of the booking, another owner NotAuthorized, a missing cafe NotFound of the cafe, and types that no longer price NotFound of the system, each with nothing changed; success extends only that booking, with no check on the hours |
| BookingModel.DurationValidIff | models/bookingModel.js:83-88 | a duration passes its validator exactly when it is a whole number of half-hours |
| BookingModel.NewBooking | models/bookingModel.js:95-178 | a new booking takes the schema defaults (`Pending Payment`, payment pending and unpaid, one friend, no extension time, no OTP, no line items), and it passes every validator exactly when its duration does |
| BookingModel.DefaultsValid | models/bookingModel.js:96-174 | the defaults satisfy the enumerations and the OTP validator; `Pending Assignment` is outside the status enumeration |
| BookingUtils.Pick | utils/bookingUtils.js:14-16 | a draw in [0, 1) picks a character of the alphabet |
| BookingUtils.GenerateBookingCode | utils/bookingUtils.js:7-24 | the code is two capital letters then four digits, each the pick of its own draw |
| BookingUtils.OtpValue | utils/bookingUtils.js:30 | every draw lands in [100000, 999999] |
| BookingUtils.GeneratedOtpValid | utils/bookingUtils.js:29-31 | a generated OTP has six digits, reads back in range, and passes the booking's OTP validator |
| BookingUtils.VerifyOTP | utils/bookingUtils.js:36-39 | false whenever the stored OTP is absent or empty; otherwise true exactly when the input equals it |
| PaymentController.Dispatch | controllers/paymentController.js:57-184 | "wallet" goes to the wallet branch, exactly card/upi/netbanking go to the gateway, and anything else is refused |
| PaymentController.RequestLayout | controllers/paymentController.js:26-35 | the request pre-image splits back into 17 fields: key, txnid, amount, productinfo, firstname, email, ten empty fields, salt |
| PaymentController.GeneratePayUHash | controllers/paymentController.js:19-49 | each hash is SHA-512 of the 17-field pre-image over the normalised description, under the first and the second salt; the primary hash is the first salt's; the two coincide when the salts do |
| PaymentController.SaltsDifferOnlyLast | controllers/paymentController.js:35-36 | the two salted pre-images agree on their first 16 fields and differ in the last exactly when the salts differ |
| PaymentController.TopUpInfoNormal | controllers/paymentController.js:24 | the top-up description an order builds is left as it is by the normalisation |
| PaymentController.ResponseLayout | controllers/paymentController.js:205 | the response pre-image splits back into its 18 fields in reverse order, with five empty fields after the status |
| PaymentController.TxnIdInjective | controllers/paymentController.js:123 | two orders share a transaction id exactly when they share both clock reading and nonce |
| PaymentController.OrderForm | controllers/paymentController.js:126-156 | the form carries the txnid, amount and key, falls back to defaults for missing user fields, and is signed over its own normalised description |
| PaymentController.TopUpFormSigned | controllers/paymentController.js:130-156 | a top-up form's hash covers exactly the description it sends |
| PaymentController.GatewayPayment | controllers/paymentController.js:159-169 | a gateway order's payment is pending, via PayU, with the txnid as gateway order id and no transaction id or payment time yet |
| PaymentController.Debited | controllers/paymentController.js:81-100 | the balance falls by exactly the amount, one debit line is appended, and the unexplained part of the balance is kept |
| PaymentController.Credited | controllers/paymentController.js:266-274 | the balance rises by exactly the amount, one credit line is appended, and the unexplained part is kept |
| PaymentController.Recorded | controllers/paymentController.js:283-290 | one debit line is appended, the balance is unchanged, and the unexplained part grows by the amount |
| PaymentController.WalletTxnMethod | controllers/paymentController.js:93 | the line's method is `extension` exactly for extensions, `topup` exactly for non-extension top-ups, and otherwise `booking` |
| PaymentController.CafeName | controllers/paymentController.js:86-87 | the booking's cafe name, or "Unknown Cafe" when the booking or cafe is missing or the name is empty; never empty |
| PaymentController.SettledBooking | controllers/paymentController.js:389-398 | an extension changes only `extensionPaymentStatus`, to completed; otherwise the booking becomes `Booked`, paid, completed and marked with the method, and nothing else changes |
| PaymentController.SettleIn | controllers/paymentController.js:104-111 | only the named booking, when it exists, is settled |
| PaymentController.SettledExtensionKeepsSession | controllers/paymentController.js:389-392 | settling an extension leaves `endSession` and the expiry sweep treating the booking exactly as before |
| PaymentController.WalletOrderRevertsSession | controllers/paymentController.js:103-111 | a wallet order for an Active booking turns it back to `Booked`, after which `endSession` refuses it and the sweep skips it |
| PaymentController.WalletPayment | controllers/paymentController.js:354-363 | a wallet payment is recorded completed, by wallet, without gateway, paid at the current time |
| PaymentController.PayFromWallet | controllers/paymentController.js:345-400 | no wallet, or a balance below the amount, is refused with no change; otherwise one completed payment, one debit of exactly the amount leaving a non-negative balance, and the booking settled unless this is a top-up |
| PaymentController.CreateExtensionPayment | controllers/paymentController.js:316-333 | a missing or absent booking is refused with NotFound and no change; otherwise the order is placed as an extension and not a top-up: an unknown method is refused, a wallet order debits the amount as an `extension` line and settles the booking as a full payment, a gateway order records a pending extension payment and returns its signed form |
| PaymentController.CreatePaymentOrder | controllers/paymentController.js:52-184 | an unknown method is refused with no change; the wallet branch pays as `PayFromWallet` and settles as a full payment; the gateway branch records a pending payment under `TXN_<now>_<nonce>` and returns the signed form, changing nothing else |
| PaymentController.ProcessWalletPayment | controllers/paymentController.js:341-406 | the wallet payment of a booking or an extension; an extension settles only the extension |
| PaymentController.CompletedPayment | controllers/paymentController.js:231-234 | the payment becomes completed with the gateway's txnid, response and the current time; nothing else changes |
| PaymentController.FailedPayment | controllers/paymentController.js:303-304 | the payment becomes failed with the response stored; nothing else changes |
| PaymentController.WalletsAfterVerify | controllers/paymentController.js:256-295 | a top-up credits exactly the amount; an extension records a debit without moving the balance; otherwise wallets are untouched; a missing wallet is created empty; other customers' wallets never change |
| PaymentController.BookingsAfterVerify | controllers/paymentController.js:238-253 | a top-up touches no booking; otherwise the payment's booking is settled per its extension flag |
| PaymentController.VerifyPayment | controllers/paymentController.js:192-308 | a missing payment or a response failing the hash check (unless it carries the mock hash) changes nothing; success on an already completed payment changes nothing; success otherwise completes the payment and settles the booking and wallet; any other status marks the payment failed |
| PaymentController.ToppedUp | controllers/paymentController.js:554-565 | the customer's wallet, created if missing, is credited exactly the amount; other wallets are unchanged |
| PaymentController.VerifyWalletTopUp | controllers/paymentController.js:513-577 | the same checks as `VerifyPayment`; success credits the wallet and returns its balance, touches no booking, and a repeat changes nothing |
| PaymentModel.NetAppend | models/walletModel.js:17-33 | appending a ledger line moves the net by its signed amount |
| PaymentModel.EmptyWallet | controllers/paymentController.js:260-263 | a new wallet has balance 0, no lines and currency INR |
| Common.SplitJoin | controllers/paymentController.js:35-36 | fields without the separator are recovered by splitting what they were joined into |

## Left out

- Persistence and transport: Mongo queries and `save`, `populate`, Express requests and responses, and HTTP status codes. Lookups are map reads, refusals are `Failure` values, and each handler's saves happen together at its end.
- Save-time schema validation is not modelled: required fields, enumerations and validators checked by `save`. As written, these saves would be rejected:
  - `createBooking` supplies no `phoneNumber`, which the schema requires.
  - `startSession` writes `assignedSystems` entries without the required `roomType`.
  - `updateBookingStatus` may store a status outside the enumeration.
  - The model shows the documents the controllers build, without that rejection.
- BookingModel: `phoneNumber`, `calculatedEndTime` and the timestamps are not part of the booking datatype, because no modelled controller reads them.
- BookingController.UpdateBookingStatus: the status is any string; an absent `status` in the request is not modelled.
- Concurrency and scheduling: node-cron, and interleaving of handlers. One `SyncExpiredSessions` call is one tick. `manualSync` only calls the sweep, and the `systemUpdatesCount` counter only feeds a log line.
- Cron.CronService.SyncExpiredSessions: the processing order of the expired bookings is not fixed (the query has no sort), and the result does not depend on it. Save failures are parameters, and other thrown errors are not modelled.
- Clocks, randomness and the calendar are parameters: `Date.now`, `new Date()`, `Math.random`, and `new Date(bookingDate).setHours(...)` with the minutes regex.
- SystemController.GetSystemAvailability: the ISO text of the end time is reduced to the instant. A registered customer's name is not loaded (the booking's customer is not populated), so the model gives no name there.
- SystemController.ExtendSystemSession: a `hoursToAdd` that is not a number (NaN, or text) is not modelled; the input is an optional real.
- TimeLabel.TimeToHour: only the JavaScript white space listed in `IsJsSpace` is skipped, and `parseInt` of numbers written in exponent form is not modelled.
- BookingUtils.OtpValue: the draw and the arithmetic are exact reals, so floating-point rounding of `100000 + draw * 900000` is not modelled.
- Floating point throughout: money and hours are exact reals. `parseFloat` and `Number` conversions, the `%` test on non-finite numbers, and `toFixed(2)` are not modelled; the formatted amount is an input.
- SHA-512, the PayU gateway, `axios` and the environment configuration: the hash is a function parameter, and the key and salts are a configuration value. `surl`, `furl` and the payment URL come from the environment and are left out.
- PaymentController.CreatePaymentOrder: `amount` and `wallet.balance < amount` are compared as numbers, and JavaScript's coercion of a text `amount` is not modelled. `createWalletTopUp` only rebuilds the request (the `toFixed(2)` amount, `isWalletTopUp` set, no booking) and forwards to this handler, so it is not a separate member; `createExtensionPayment` is `PaymentController.CreateExtensionPayment`.
- PaymentController.VerifyPayment: the logged messages and the response message texts are left out.
- `getWalletBalance` and `getMyBookings` are read-only listings outside the core; they are not part of this model.

## Findings

| source | as written | input that shows it | evidently intended | confidence | as-written member | corrected member |
|---|---|---|---|---|---|---|
| controllers/paymentController.js:103-111 | the wallet branch of `createPaymentOrder` settles the booking as a full payment even when `isExtension` is set, setting status `Booked` | an `Active` booking whose extension is paid with `paymentMethod: 'wallet'` through `createExtensionPayment` (`PaymentController.CreateExtensionPayment`): afterwards `endSession` refuses it (status `Booked`) and the sweep never completes it | settle only the extension, as `processWalletPayment` (lines 389-398) and `verifyPayment` (lines 241-250) do | medium; not executed | PaymentController.WalletOrderRevertsSession | PaymentController.SettledExtensionKeepsSession |

`PaymentController.CreatePaymentOrder` keeps the code as written. The other settlement paths (`ProcessWalletPayment`, `VerifyPayment`) use `SettledBooking` with the extension flag. That is the intended behaviour, and `SettledExtensionKeepsSession` proves it leaves the session alone.
