/** A FairCoin address as the hex string of its bytes, and back. Addresses are
    ASCII, so UTF-8 gives one byte a character. */
module AddressBytes {
  predicate Ascii(s: string) { forall i :: 0 <= i < |s| ==> s[i] < 128 as char }

  function HexDigit(v: nat): (c: char)
    requires v < 16
  {
    if v < 10 then '0' + v as char else 'a' + (v - 10) as char
  }

  function HexValue(c: char): (v: nat)
    ensures v < 16
  {
    if '0' <= c <= '9' then (c - '0') as nat
    else if 'a' <= c <= 'f' then (c - 'a') as nat + 10
    else 0
  }

  lemma HexDigitReadsBack(v: nat)
    requires v < 16
    ensures HexValue(HexDigit(v)) == v
  {
  }

  /** `byte.toString(16).padStart(2, "0")`. */
  function HexByte(b: nat): (s: string)
    requires b < 256
    ensures |s| == 2
  {
    [HexDigit(b / 16), HexDigit(b % 16)]
  }

  function HexOf(address: string): (s: string)
    requires Ascii(address)
    ensures |s| == 2 * |address|
  {
    if address == "" then ""
    else HexOf(address[..|address| - 1]) + HexByte(address[|address| - 1] as nat)
  }

  /** `fairAddressToBytes`. */
  method FairAddressToBytes(address: string) returns (bytes: string)
    requires Ascii(address)
    ensures bytes == "0x" + HexOf(address)
  {
    var hex := "";
    for i := 0 to |address|
      invariant hex == HexOf(address[..i])
    {
      assert address[..i + 1][..i] == address[..i];
      hex := hex + HexByte(address[i] as nat);
    }
    assert address[..|address|] == address;
    bytes := "0x" + hex;
  }

  /** `hexToBytes` and `TextDecoder.decode`, of the digits after `0x`. */
  function BytesOf(hex: string): string {
    if |hex| < 2 then ""
    else
      var n := |hex| - 2;
      BytesOf(hex[..n]) + [(16 * HexValue(hex[n]) + HexValue(hex[n + 1])) as char]
  }

  /** Space, tab, line feed, vertical tab, form feed, carriage return. */
  predicate Blank(c: char): (blank: bool)
    ensures blank <==> c as int in {32, 9, 10, 11, 12, 13}
  {
    c == ' ' || 9 as char <= c <= 13 as char
  }

  /** `trim`, of ASCII whitespace. */
  function Trim(s: string): string
    decreases |s|
  {
    if s == "" then s
    else if Blank(s[0]) then Trim(s[1..])
    else if Blank(s[|s| - 1]) then Trim(s[..|s| - 1])
    else s
  }

  /** `decodeFaircoinAddressBytes`. */
  function Decode(bytes: string): string
    requires |bytes| >= 2
  {
    Trim(BytesOf(bytes[2..]))
  }

  lemma ByteReadsBack(c: char)
    requires c < 128 as char
    ensures var digits := HexByte(c as nat); (16 * HexValue(digits[0]) + HexValue(digits[1])) as char == c
  {
    HexDigitReadsBack(c as nat / 16);
    HexDigitReadsBack(c as nat % 16);
  }

  lemma BytesAppend(hex: string, digits: string)
    requires |digits| == 2
    ensures BytesOf(hex + digits) == BytesOf(hex) + [(16 * HexValue(digits[0]) + HexValue(digits[1])) as char]
  {
    assert (hex + digits)[..|hex|] == hex;
  }

  lemma ByteAppended(hex: string, c: char)
    requires c < 128 as char
    ensures BytesOf(hex + HexByte(c as nat)) == BytesOf(hex) + [c]
  {
    BytesAppend(hex, HexByte(c as nat));
    ByteReadsBack(c);
  }

  lemma {:induction false} BytesReadBack(address: string)
    requires Ascii(address)
    ensures BytesOf(HexOf(address)) == address
  {
    if address != "" {
      var front, last := address[..|address| - 1], address[|address| - 1];
      BytesReadBack(front);
      ByteAppended(HexOf(front), last);
      assert address == front + [last];
    }
  }

  lemma {:induction false} TrimShrinks(s: string)
    ensures |Trim(s)| <= |s|
    ensures Trim(s) == s <==> s == "" || (!Blank(s[0]) && !Blank(s[|s| - 1]))
    decreases |s|
  {
    if s != "" {
      if Blank(s[0]) { TrimShrinks(s[1..]); }
      else if Blank(s[|s| - 1]) { TrimShrinks(s[..|s| - 1]); }
    }
  }

  /** The string is this one with blanks before and after it. */
  predicate Around(s: string, front: string, middle: string, back: string) {
    s == front + middle + back && AllBlank(front) && AllBlank(back)
  }

  lemma OneMoreBefore(s: string, front: string, middle: string, back: string)
    requires s != "" && Blank(s[0]) && Around(s[1..], front, middle, back)
    ensures Around(s, [s[0]] + front, middle, back)
  {
    assert s == [s[0]] + s[1..];
  }

  lemma OneMoreAfter(s: string, front: string, middle: string, back: string)
    requires s != "" && Blank(s[|s| - 1]) && Around(s[..|s| - 1], front, middle, back)
    ensures Around(s, front, middle, back + [s[|s| - 1]])
  {
    assert s == s[..|s| - 1] + [s[|s| - 1]];
  }

  /** What is trimmed is whitespace, and all of it at either end. */
  lemma {:induction false} TrimDropsTheEnds(s: string) returns (front: string, back: string)
    ensures Around(s, front, Trim(s), back)
    ensures Trim(s) == "" || (!Blank(Trim(s)[0]) && !Blank(Trim(s)[|Trim(s)| - 1]))
    decreases |s|
  {
    front, back := "", "";
    if s != "" {
      if Blank(s[0]) {
        front, back := TrimDropsTheEnds(s[1..]);
        OneMoreBefore(s, front, Trim(s), back);
        front := [s[0]] + front;
      } else if Blank(s[|s| - 1]) {
        front, back := TrimDropsTheEnds(s[..|s| - 1]);
        OneMoreAfter(s, front, Trim(s), back);
        back := back + [s[|s| - 1]];
      }
    }
  }

  predicate AllBlank(s: string) { forall i :: 0 <= i < |s| ==> Blank(s[i]) }

  /** The scanner reads back the address that was burned to without the whitespace at
      its ends, so exactly that address when it has none there; Base58 has none. */
  lemma DecodesIff(address: string)
    requires Ascii(address)
    ensures Decode("0x" + HexOf(address)) == Trim(address)
    ensures Decode("0x" + HexOf(address)) == address <==>
      address == "" || (!Blank(address[0]) && !Blank(address[|address| - 1]))
  {
    assert ("0x" + HexOf(address))[2..] == HexOf(address);
    BytesReadBack(address);
    TrimShrinks(address);
  }
}
