/** The booking code and one-time-password helpers (utils/bookingUtils.js).
    `Math.random()` is replaced by explicit draws, each in [0, 1). */
module BookingUtils {
  import opened Common
  import opened BookingModel

  const Letters: string := "ABCDEFGHIJKLMNOPQRSTUVWXYZ"
  const Numbers: string := "0123456789"

  predicate IsUpper(c: char) {
    'A' <= c <= 'Z'
  }

  predicate IsDraw(x: real) {
    0.0 <= x < 1.0
  }

  /** `alphabet.charAt(Math.floor(draw * alphabet.length))`. */
  function Pick(alphabet: string, draw: real): (c: char)
    requires |alphabet| > 0 && IsDraw(draw)
    ensures exists i :: 0 <= i < |alphabet| && c == alphabet[i]
  {
    var i := (draw * |alphabet| as real).Floor;
    assert 0 <= i < |alphabet| by {
      assert 0.0 <= draw * |alphabet| as real < |alphabet| as real;
    }
    alphabet[i]
  }

  lemma PickLetter(draw: real)
    requires IsDraw(draw)
    ensures IsUpper(Pick(Letters, draw))
  {
    var c := Pick(Letters, draw);
    var i :| 0 <= i < |Letters| && c == Letters[i];
    assert Letters[i] == "ABCDEFGHIJKLMNOPQRSTUVWXYZ"[i];
  }

  lemma PickNumber(draw: real)
    requires IsDraw(draw)
    ensures IsDigit(Pick(Numbers, draw))
  {
    var c := Pick(Numbers, draw);
    var i :| 0 <= i < |Numbers| && c == Numbers[i];
    assert Numbers[i] == "0123456789"[i];
  }

  /** The shape of a booking code: two capital letters, then four digits. */
  predicate CodeShape(code: string) {
    |code| == 6
    && (forall i :: 0 <= i < 2 ==> IsUpper(code[i]))
    && (forall i :: 2 <= i < 6 ==> IsDigit(code[i]))
  }

  /** `generateBookingCode()`, consuming one draw per character in order:
      two letters, then four digits. */
  method GenerateBookingCode(draws: seq<real>) returns (code: string)
    requires |draws| == 6 && forall i :: 0 <= i < 6 ==> IsDraw(draws[i])
    ensures CodeShape(code)
    ensures forall i :: 0 <= i < 2 ==> code[i] == Pick(Letters, draws[i])
    ensures forall i :: 2 <= i < 6 ==> code[i] == Pick(Numbers, draws[i])
  {
    code := "";
    var i := 0;
    while i < 2
      invariant 0 <= i <= 2 && |code| == i
      invariant forall j :: 0 <= j < i ==> code[j] == Pick(Letters, draws[j]) && IsUpper(code[j])
    {
      PickLetter(draws[i]);
      code := code + [Pick(Letters, draws[i])];
      i := i + 1;
    }
    i := 0;
    while i < 4
      invariant 0 <= i <= 4 && |code| == 2 + i
      invariant forall j :: 0 <= j < 2 ==> code[j] == Pick(Letters, draws[j]) && IsUpper(code[j])
      invariant forall j :: 2 <= j < 2 + i ==> code[j] == Pick(Numbers, draws[j]) && IsDigit(code[j])
    {
      PickNumber(draws[2 + i]);
      code := code + [Pick(Numbers, draws[2 + i])];
      i := i + 1;
    }
  }

  /** `Math.floor(100000 + draw * 900000).toString()`. */
  function GenerateOTP(draw: real): (otp: string)
    requires IsDraw(draw)
    ensures AllDigits(otp)
  {
    NatToString(OtpValue(draw))
  }

  /** The number an OTP draw lands on. */
  function OtpValue(draw: real): (n: nat)
    requires IsDraw(draw)
    ensures 100000 <= n <= 999999
  {
    assert 100000.0 <= 100000.0 + draw * 900000.0 < 1000000.0;
    (100000.0 + draw * 900000.0).Floor
  }

  /** Every generated OTP is six digits, reads back as a number in
      [100000, 999999], and passes the booking record's OTP validator. */
  lemma GeneratedOtpValid(draw: real)
    requires IsDraw(draw)
    ensures |GenerateOTP(draw)| == 6
    ensures 100000 <= DigitsValue(GenerateOTP(draw)) <= 999999
    ensures OtpValid(Some(GenerateOTP(draw)))
  {
    var n := OtpValue(draw);
    assert Pow10(5) == 100000 && Pow10(6) == 1000000;
    NatToStringLength(n, 6);
    NatToStringValue(n);
  }

  /** `verifyOTP(input, stored)`: a missing or empty stored OTP never
      matches; otherwise the strings must be identical. */
  function VerifyOTP(input: Option<string>, stored: Option<string>): (ok: bool)
    ensures stored.None? || stored == Some("") ==> !ok
    ensures stored.Some? && stored.value != "" ==> (ok <==> input == stored)
  {
    if stored.None? || stored.value == "" then false
    else input == stored
  }
}
