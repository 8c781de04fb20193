/** Bytes, and text as its UTF-8 bytes. */
module Bytes {
  type Byte = b: nat | b < 256
  type Text = seq<Byte>

  predicate Between(b: Byte, low: nat, high: nat) {
    low <= b <= high
  }

  predicate Continues(b: Byte) {
    Between(b, 0x80, 0xBF)
  }

  /** Length of the well-formed sequence at the front, 0 if there is none: table 3-7 of the Unicode
      standard, which is the grammar in section 4 of RFC 3629. */
  function Utf8Step(t: Text): (k: nat)
    ensures k <= |t|
  {
    if |t| >= 1 && t[0] <= 0x7F then 1
    else if |t| >= 2 && Between(t[0], 0xC2, 0xDF) && Continues(t[1]) then 2
    else if |t| >= 3 && Continues(t[2])
            && ( || (t[0] == 0xE0 && Between(t[1], 0xA0, 0xBF))
                 || (t[0] == 0xED && Between(t[1], 0x80, 0x9F))
                 || ((Between(t[0], 0xE1, 0xEC) || Between(t[0], 0xEE, 0xEF)) && Continues(t[1]))) then 3
    else if |t| >= 4 && Continues(t[2]) && Continues(t[3])
            && ( || (t[0] == 0xF0 && Between(t[1], 0x90, 0xBF))
                 || (t[0] == 0xF4 && Between(t[1], 0x80, 0x8F))
                 || (Between(t[0], 0xF1, 0xF3) && Continues(t[1]))) then 4
    else 0
  }

  predicate IsUtf8(t: Text)
    decreases |t|
  {
    t == [] || (Utf8Step(t) > 0 && IsUtf8(t[Utf8Step(t)..]))
  }
}
