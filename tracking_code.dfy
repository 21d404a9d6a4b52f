// Tracking codes: "TRK" followed by `Math.floor(Math.random() * 1000000)`
// rendered in decimal and left-padded with zeros to six digits. The random
// draw is a parameter here.
module TrackingCodes {
  import opened Common
  import opened Text

  const CodeSpace: nat := 1000000

  /** `TRK${n.toString().padStart(6, "0")}`. */
  function TrackingCode(n: nat): (code: string)
    requires n < CodeSpace
    ensures |code| == 9 && code[..3] == "TRK"
    ensures forall i :: 3 <= i < 9 ==> IsDigit(code[i])
  {
    NatToStringLength(n, 6);
    "TRK" + PadStart(NatToString(n), 6, '0')
  }

  predicate WellFormedCode(code: string) {
    |code| == 9 && code[..3] == "TRK" && forall i :: 3 <= i < 9 ==> IsDigit(code[i])
  }

  /** Reads the number back out of a code; None for anything else. */
  function CodeNumber(code: string): (n: Option<nat>)
    ensures n.Some? <==> WellFormedCode(code)
    ensures n.Some? ==> n.value < CodeSpace
  {
    if WellFormedCode(code) then
      DigitsBound(code[3..]);
      assert Pow10(6) == CodeSpace by {
        assert Pow10(2) == 100;
        assert Pow10(4) == 10000;
      }
      Some(DigitsValue(code[3..]))
    else None
  }

  lemma {:induction false} DigitsBound(s: string)
    requires forall i :: 0 <= i < |s| ==> IsDigit(s[i])
    ensures DigitsValue(s) < Pow10(|s|)
  {
    if s != [] {
      DigitsBound(s[..|s| - 1]);
    }
  }

  /** Decoding a code gives back the number it was made from. */
  lemma CodeRoundTrip(n: nat)
    requires n < CodeSpace
    ensures CodeNumber(TrackingCode(n)) == Some(n)
  {
    var digits := NatToString(n);
    NatToStringLength(n, 6);
    NatToStringValue(n);
    var padded := PadStart(digits, 6, '0');
    assert TrackingCode(n)[3..] == padded;
    if |digits| < 6 {
      LeadingZerosValue(6 - |digits|, digits);
    }
  }

  /** Different draws give different codes; equal codes come from equal draws. */
  lemma CodeInjective(n: nat, m: nat)
    requires n < CodeSpace && m < CodeSpace
    ensures TrackingCode(n) == TrackingCode(m) <==> n == m
  {
    CodeRoundTrip(n);
    CodeRoundTrip(m);
  }
}
