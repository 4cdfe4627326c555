/** Binary-coded decimal bytes. */
module CommonUtils {
  import opened Bytes

  function BcdToInt(bcd: byte): (v: nat)
    ensures v <= 165
  {
    bcd / 16 * 10 + bcd % 16
  }

  /** The packed decimal byte of the last two digits of `v`. */
  function Bcd(v: nat): byte {
    v / 10 % 10 * 16 + v % 10
  }

  /** Digit after digit is shifted into the byte; those beyond the second fall off its top. The bound keeps the
      shifted digit within an `int`. */
  method IntToBcd(value: int) returns (result: byte)
    requires value < 10_000_000
    ensures result == if value <= 0 then 0 else Bcd(value)
  {
    result := 0;
    var rest, shift := value, 0;
    while rest > 0
      invariant 0 <= shift && rest <= value
      invariant value <= 0 ==> rest == value && result == 0
      invariant value > 0 && shift == 0 ==> rest == value && result == 0
      invariant value > 0 && shift == 1 ==> rest == value / 10 && result == value % 10
      invariant value > 0 && shift >= 2 ==> rest >= 0 && result == Bcd(value)
    {
      // a digit shifted by eight bits or more leaves nothing in the byte
      if shift == 0 {
        result := result + rest % 10;
      } else if shift == 1 {
        result := result + rest % 10 * 16;
      }
      shift := shift + 1;
      rest := rest / 10;
    }
  }

  predicate ValidBcd(b: byte) {
    b / 16 <= 9 && b % 16 <= 9
  }

  /** Converting to an integer and back keeps exactly the bytes whose nibbles are both digits. */
  lemma BcdRoundTrip(b: byte)
    ensures Bcd(BcdToInt(b)) == b <==> ValidBcd(b)
  {
    NibbleDigits(b / 16, b % 16);
  }

  /** How the tens and units of `10 * h + l` differ from the nibbles h and l. */
  lemma NibbleDigits(h: nat, l: nat)
    requires h < 16 && l < 16
    ensures var v := h * 10 + l; v / 10 % 10 * 16 + v % 10 == h * 16 + l <==> h <= 9 && l <= 9
  {
    var v := h * 10 + l;
    if l <= 9 {
      assert v / 10 == h && v % 10 == l;
    } else {
      assert v / 10 == h + 1 && v % 10 == l - 10;
    }
  }
}
