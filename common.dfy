/** Shared vocabulary of the booking backend: optional values, document ids,
    the reasons a request is refused, and the few string helpers the
    controllers rely on (`Array.prototype.find`, `split`/`join`, decimal digits). */
module Common {

  datatype Option<T> = None | Some(value: T)

  // Document ids (Mongo ObjectIds) are opaque; naturals stand for them.
  type UserId = nat
  type CafeId = nat
  type BookingId = nat
  type PaymentId = nat

  /** The kind of document a lookup failed to find. */
  datatype Entity = BookingDoc | CafeDoc | RoomDoc | SystemDoc | WalletDoc | PaymentDoc

  /** Why a request was refused. The HTTP status code and message text of each
      are transport concerns and are not modelled. */
  datatype Failure =
    | MissingInput                               // 400: a required field of the request is absent
    | NotFound(entity: Entity)                   // 404 (400 for rooms and system types)
    | NotAuthorized                              // 401 / 403
    | WrongStatus(status: string)                // 400: the booking is in the wrong state
    | CountMismatch(required: int, provided: int)
    | SystemUnavailable(systemId: string)
    | InvalidStatusValue                         // maintenance status outside the two allowed
    | SessionInProgress                          // maintenance refused while 'In Session'
    | InsufficientBalance
    | InvalidPaymentMethod
    | InvalidGatewayResponse                     // recomputed hash does not match
    | PaymentFailed                              // the gateway reported a non-success status
    | InvalidDate                                // 500: a session start that is not a valid date

  datatype Outcome<T> = Ok(value: T) | Fail(failure: Failure)

  /** `s.find(p)` / `s.findIndex(p)`: the index of the first element satisfying `p`. */
  function FirstWhere<T>(s: seq<T>, p: T -> bool): (r: Option<nat>)
    ensures r.Some? ==> r.value < |s| && p(s[r.value])
    ensures r.Some? ==> forall j :: 0 <= j < r.value ==> !p(s[j])
    ensures r.None? ==> forall j :: 0 <= j < |s| ==> !p(s[j])
  {
    if |s| == 0 then None
    else if p(s[0]) then Some(0)
    else match FirstWhere(s[1..], p)
         case None => None
         case Some(i) => Some(i + 1)
  }

  /** Two sequences that agree element-wise under two predicates have the same
      first match; used when a pass changes only fields a lookup does not read. */
  lemma {:induction false} FirstWhereCongruent<T, U>(s: seq<T>, p: T -> bool, t: seq<U>, q: U -> bool)
    requires |s| == |t|
    requires forall j :: 0 <= j < |s| ==> p(s[j]) == q(t[j])
    ensures FirstWhere(s, p) == FirstWhere(t, q)
  {
    if |s| > 0 && !p(s[0]) {
      FirstWhereCongruent(s[1..], p, t[1..], q);
    }
  }

  predicate IsDigit(c: char) {
    '0' <= c <= '9'
  }

  predicate AllDigits(s: string) {
    forall i :: 0 <= i < |s| ==> IsDigit(s[i])
  }

  function DigitChar(d: nat): (c: char)
    requires d < 10
    ensures IsDigit(c) && (c as int) - ('0' as int) == d
  {
    (('0' as int) + d) as char
  }

  /** The value of a string of decimal digits. */
  function DigitsValue(s: string): nat
    requires AllDigits(s)
  {
    if s == [] then 0
    else 10 * DigitsValue(s[..|s| - 1]) + ((s[|s| - 1] as int) - ('0' as int))
  }

  /** `String(n)` for a non-negative integer: its decimal digits, no leading zero. */
  function NatToString(n: nat): (s: string)
    ensures 1 <= |s| && AllDigits(s)
    ensures |s| > 1 ==> s[0] != '0'
  {
    if n < 10 then [DigitChar(n)]
    else NatToString(n / 10) + [DigitChar(n % 10)]
  }

  /** Reading back the digits of `String(n)` gives `n`. */
  lemma {:induction false} NatToStringValue(n: nat)
    ensures DigitsValue(NatToString(n)) == n
  {
    var s := NatToString(n);
    if n >= 10 {
      NatToStringValue(n / 10);
      assert s[..|s| - 1] == NatToString(n / 10);
    }
  }

  /** A number in [10^(k-1), 10^k) is written with exactly k decimal digits. */
  lemma {:induction false} NatToStringLength(n: nat, k: nat)
    requires k >= 1
    ensures Pow10(k - 1) <= n < Pow10(k) || (k == 1 && n == 0) ==> |NatToString(n)| == k
  {
    if (Pow10(k - 1) <= n < Pow10(k) || (k == 1 && n == 0)) && n >= 10 {
      assert k >= 2;
      NatToStringLength(n / 10, k - 1);
    }
  }

  /** `s.split(sep)[0]`: everything before the first `sep`. */
  function Before(s: string, sep: char): (r: string)
    ensures |r| <= |s|
  {
    if s == [] || s[0] == sep then [] else [s[0]] + Before(s[1..], sep)
  }

  lemma {:induction false} BeforeFirst(a: string, b: string, sep: char)
    requires sep !in a
    ensures Before(a + [sep] + b, sep) == a
  {
    if a != [] {
      assert (a + [sep] + b)[1..] == a[1..] + [sep] + b;
      BeforeFirst(a[1..], b, sep);
    }
  }

  lemma {:induction false} BeforeAbsent(a: string, sep: char)
    requires sep !in a
    ensures Before(a, sep) == a
  {
    if a != [] {
      BeforeAbsent(a[1..], sep);
    }
  }

  /** `fields.join(sep)`. */
  function Join(fields: seq<string>, sep: char): string {
    if fields == [] then ""
    else if |fields| == 1 then fields[0]
    else fields[0] + [sep] + Join(fields[1..], sep)
  }

  /** `s.split(sep)`: the pieces between occurrences of `sep`. */
  function Split(s: string, sep: char): (parts: seq<string>)
    ensures |parts| >= 1
    decreases |s|
  {
    var head := Before(s, sep);
    if |head| == |s| then [s] else [head] + Split(s[|head| + 1..], sep)
  }

  /** Fields free of the separator are recovered by splitting what they were joined into. */
  lemma {:induction false} SplitJoin(fields: seq<string>, sep: char)
    requires |fields| >= 1
    requires forall i :: 0 <= i < |fields| ==> sep !in fields[i]
    ensures Split(Join(fields, sep), sep) == fields
  {
    if |fields| == 1 {
      BeforeAbsent(fields[0], sep);
    } else {
      var rest := Join(fields[1..], sep);
      var s := fields[0] + [sep] + rest;
      assert Join(fields, sep) == s;
      BeforeFirst(fields[0], rest, sep);
      assert s[|fields[0]| + 1..] == rest;
      assert Split(s, sep) == [fields[0]] + Split(rest, sep);
      SplitJoin(fields[1..], sep);
      assert fields == [fields[0]] + fields[1..];
    }
  }

  function Pow10(k: nat): (r: nat)
    ensures r >= 1
  {
    if k == 0 then 1 else 10 * Pow10(k - 1)
  }
}
