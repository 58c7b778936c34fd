/**
 * `generateOTP`, identical in backend/server.js and api/auth/send-otp.js:
 * `Math.floor(100000 + Math.random() * 900000).toString()`.
 * The random draw is taken as the integer `r = floor(Math.random() * 900000)`.
 */
module OtpCode {
  import Decimal

  const MinCode: nat := 100000
  const CodeRange: nat := 900000

  /** The code for the draw `r`, as the value the source converts to a string. */
  function CodeValue(r: nat): (v: nat)
    requires r < CodeRange
    ensures MinCode <= v <= 999999
  {
    MinCode + r
  }

  /** The decimal string of the code. */
  function GenerateOtp(r: nat): (code: string)
    requires r < CodeRange
    ensures |code| == 6
  {
    assert Decimal.Pow10(5) == 100000 && Decimal.Pow10(6) == 1000000;
    Decimal.LengthOfFromNat(CodeValue(r), 6);
    Decimal.FromNat(CodeValue(r))
  }

  /** Every code is six decimal digits, spelling a number in [100000, 999999], and the draw is recoverable. */
  lemma SixDigits(r: nat)
    requires r < CodeRange
    ensures |GenerateOtp(r)| == 6 && Decimal.AllDigits(GenerateOtp(r))
    ensures Decimal.ValueOf(GenerateOtp(r)) == MinCode + r
    ensures GenerateOtp(r)[0] != '0'
  {
    assert Decimal.Pow10(5) == 100000 && Decimal.Pow10(6) == 1000000;
    Decimal.LengthOfFromNat(CodeValue(r), 6);
    Decimal.ValueOfFromNat(CodeValue(r));
  }

  /** Distinct draws give distinct codes. */
  lemma Injective(r1: nat, r2: nat)
    requires r1 < CodeRange && r2 < CodeRange
    ensures GenerateOtp(r1) == GenerateOtp(r2) ==> r1 == r2
  {
    SixDigits(r1);
    SixDigits(r2);
  }
}
