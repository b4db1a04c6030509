/** broker.rs, `random_token`: three zero-padded lower-case hex fields, the last one a process-wide counter. */
module Tokens {
  import opened Prelude

  const DIGITS := "0123456789abcdef"

  /** Lower-case hexadecimal without padding, as `{:x}` prints it. */
  function HexLower(n: nat): (s: string)
    ensures |s| > 0
    decreases n
  {
    if n < 16 then [DIGITS[n]] else HexLower(n / 16) + [DIGITS[n % 16]]
  }

  function Zeros(k: nat): (s: string)
    ensures |s| == k
  {
    if k == 0 then "" else "0" + Zeros(k - 1)
  }

  /** `{:0width$x}`: at least `width` digits, more when the number needs them. */
  function PaddedHex(n: nat, width: nat): string {
    var s := HexLower(n);
    if |s| < width then Zeros(width - |s|) + s else s
  }

  function TokenString(ns: nat, pid: nat, counter: nat): string {
    PaddedHex(ns, 16) + PaddedHex(pid, 8) + PaddedHex(counter, 16)
  }

  // ----- reading the digits back -------------------------------------------

  function DigitValue(c: char): nat {
    if '0' <= c <= '9' then c as nat - '0' as nat
    else if 'a' <= c <= 'f' then c as nat - 'a' as nat + 10
    else 0
  }

  function HexValue(s: string): nat {
    if s == "" then 0 else 16 * HexValue(s[..|s| - 1]) + DigitValue(s[|s| - 1])
  }

  lemma {:induction false} HexLowerValue(n: nat)
    ensures HexValue(HexLower(n)) == n
    decreases n
  {
    if n < 16 {
      assert HexLower(n)[..0] == "";
    } else {
      HexLowerValue(n / 16);
      assert HexLower(n)[..|HexLower(n)| - 1] == HexLower(n / 16);
    }
  }

  lemma {:induction false} LeadingZeros(k: nat, s: string)
    ensures HexValue(Zeros(k) + s) == HexValue(s)
    decreases |s|, k
  {
    if s != "" {
      LeadingZeros(k, s[..|s| - 1]);
      assert (Zeros(k) + s)[..|Zeros(k) + s| - 1] == Zeros(k) + s[..|s| - 1];
    } else if k > 0 {
      LeadingZeros(k - 1, s);
      ZerosEnd(k);
      assert (Zeros(k) + s)[..k - 1] == Zeros(k - 1) + s;
    }
  }

  lemma {:induction false} ZerosEnd(k: nat)
    requires k > 0
    ensures Zeros(k) == Zeros(k - 1) + "0"
  {
    if k > 1 {
      ZerosEnd(k - 1);
    }
  }

  lemma PaddedHexValue(n: nat, width: nat)
    ensures HexValue(PaddedHex(n, width)) == n
  {
    HexLowerValue(n);
    var s := HexLower(n);
    if |s| < width {
      LeadingZeros(width - |s|, s);
    }
  }

  function Pow16(k: nat): (r: nat)
    ensures r > 0
  {
    if k == 0 then 1 else 16 * Pow16(k - 1)
  }

  lemma {:induction false} HexLowerLength(n: nat, width: nat)
    requires width > 0 && n < Pow16(width)
    ensures |HexLower(n)| <= width
    decreases width
  {
    if n >= 16 {
      assert Pow16(1) == 16 * Pow16(0);
      HexLowerLength(n / 16, width - 1);
    }
  }

  lemma PaddedHexLength(n: nat, width: nat)
    requires width > 0 && n < Pow16(width)
    ensures |PaddedHex(n, width)| == width
  {
    HexLowerLength(n, width);
  }

  lemma Widths()
    ensures Pow16(8) == U32_LIMIT && Pow16(16) == U64_LIMIT
  {
  }

  /** A token is 40 lower-case hex digits: time, process id and counter, each at its full width. */
  lemma TokenLayout(ns: nat, pid: nat, counter: nat)
    requires ns < U64_LIMIT && pid < U32_LIMIT && counter < U64_LIMIT
    ensures var s := TokenString(ns, pid, counter);
            && |s| == 40 && HexValue(s[..16]) == ns && HexValue(s[16..24]) == pid && HexValue(s[24..]) == counter
            && forall c :: c in s ==> '0' <= c <= '9' || 'a' <= c <= 'f'
  {
    Widths();
    PaddedHexLength(ns, 16);
    PaddedHexLength(pid, 8);
    PaddedHexLength(counter, 16);
    var s := TokenString(ns, pid, counter);
    assert s[..16] == PaddedHex(ns, 16) && s[16..24] == PaddedHex(pid, 8) && s[24..] == PaddedHex(counter, 16);
    PaddedHexValue(ns, 16);
    PaddedHexValue(pid, 8);
    PaddedHexValue(counter, 16);
    PaddedHexDigits(ns, 16);
    PaddedHexDigits(pid, 8);
    PaddedHexDigits(counter, 16);
  }

  predicate HexDigit(c: char) {
    '0' <= c <= '9' || 'a' <= c <= 'f'
  }

  lemma {:induction false} HexLowerDigits(n: nat)
    ensures forall c :: c in HexLower(n) ==> HexDigit(c)
    decreases n
  {
    assert forall d :: 0 <= d < 16 ==> HexDigit(DIGITS[d]);
    if n >= 16 {
      HexLowerDigits(n / 16);
    }
  }

  lemma {:induction false} ZerosDigits(k: nat)
    ensures forall c :: c in Zeros(k) ==> HexDigit(c)
  {
    if k > 0 {
      ZerosDigits(k - 1);
    }
  }

  lemma PaddedHexDigits(n: nat, width: nat)
    ensures forall c :: c in PaddedHex(n, width) ==> HexDigit(c)
  {
    HexLowerDigits(n);
    if |HexLower(n)| < width {
      ZerosDigits(width - |HexLower(n)|);
    }
  }

  /**
   * Token strings are injective in every field as long as each field fits its machine width,
   * so two tokens minted under different counter values are different strings.
   */
  lemma TokenStringInjective(ns: nat, pid: nat, counter: nat, ns': nat, pid': nat, counter': nat)
    requires ns < U64_LIMIT && ns' < U64_LIMIT && pid < U32_LIMIT && pid' < U32_LIMIT
    requires counter < U64_LIMIT && counter' < U64_LIMIT
    requires TokenString(ns, pid, counter) == TokenString(ns', pid', counter')
    ensures ns == ns' && pid == pid' && counter == counter'
  {
    TokenLayout(ns, pid, counter);
    TokenLayout(ns', pid', counter');
  }
}
