/** C strings: sequences of bytes, held in chars below 256. */
module Texts {
  type Octet = c: char | c as int < 256 witness 'a'
  type Text = seq<Octet>

  const NUL: Octet := 0 as char

  predicate NulFree(s: Text) {
    NUL !in s
  }

  /** The part of s that a C routine taking a NUL-terminated string sees. */
  function CStr(s: Text): (r: Text)
    ensures NulFree(r)
    ensures r <= s
    ensures r == s <==> NulFree(s)
  {
    if s == [] || s[0] == NUL then []
    else [s[0]] + CStr(s[1..])
  }

  /** The decimal spelling of an array index, as used for enumerated keys. */
  function IndexText(n: nat): Text {
    var digit: Octet := ('0' as int + n % 10) as char;
    if n < 10 then [digit] else IndexText(n / 10) + [digit]
  }
}
