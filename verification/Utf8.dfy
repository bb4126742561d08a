/** UTF-8 as section 3 of RFC 3629 defines it, and the splitting of a text into chunks of bounded size. */
module Utf8 {
  import opened Options
  import opened Batching

  type byte = b: int | 0 <= b < 256

  /** A Dafny character is a Unicode scalar value: no surrogate, at most U+10FFFF. */
  function EncodeChar(c: char): (r: seq<byte>)
    ensures 1 <= |r| <= 4
  {
    var n := c as int;
    if n < 0x80 then [n]
    else if n < 0x800 then [0xC0 + n / 0x40, 0x80 + n % 0x40]
    else if n < 0x1_0000 then [0xE0 + n / 0x1000, 0x80 + n / 0x40 % 0x40, 0x80 + n % 0x40]
    else [0xF0 + n / 0x4_0000, 0x80 + n / 0x1000 % 0x40, 0x80 + n / 0x40 % 0x40, 0x80 + n % 0x40]
  }

  function Encode(text: string): (r: seq<byte>) {
    if text == "" then [] else EncodeChar(text[0]) + Encode(text[1..])
  }

  /** The number of octets of the sequence that a leading octet announces. */
  function LeadLength(b: byte): nat {
    if b < 0xC0 then 1 else if b < 0xE0 then 2 else if b < 0xF0 then 3 else 4
  }

  /** The scalar value that a well-formed octet sequence stands for. */
  function DecodeValue(s: seq<byte>): int
    requires 1 <= |s| <= 4
  {
    var lead: int := s[0];
    if |s| == 1 then lead
    else
      var last: int := (s[|s| - 1] as int) - 0x80;
      if |s| == 2 then (lead - 0xC0) * 0x40 + last
      else
        var second: int := (s[1] as int) - 0x80;
        if |s| == 3 then (lead - 0xE0) * 0x1000 + second * 0x40 + last
        else
          var third: int := (s[2] as int) - 0x80;
          (lead - 0xF0) * 0x4_0000 + second * 0x1000 + third * 0x40 + last
  }

  lemma Digits64(n: nat)
    ensures n / 0x1000 == n / 0x40 / 0x40 && n / 0x4_0000 == n / 0x1000 / 0x40
    ensures n == n / 0x40 * 0x40 + n % 0x40
    ensures n / 0x40 == n / 0x1000 * 0x40 + n / 0x40 % 0x40
    ensures n / 0x1000 == n / 0x4_0000 * 0x40 + n / 0x1000 % 0x40
  {
  }

  lemma DecodesBack(c: char)
    ensures DecodeValue(EncodeChar(c)) == c as int
    ensures LeadLength(EncodeChar(c)[0]) == |EncodeChar(c)|
  {
    Digits64(c as int);
  }

  /** No encoding of a character begins the encoding of another. */
  lemma CharEncodingIsPrefixFree(c: char, a: seq<byte>, d: char, b: seq<byte>)
    requires EncodeChar(c) + a == EncodeChar(d) + b
    ensures c == d && a == b
  {
    DecodesBack(c);
    DecodesBack(d);
    var x, y := EncodeChar(c), EncodeChar(d);
    assert (x + a)[0] == x[0] && (y + b)[0] == y[0];
    assert x == (x + a)[..|x|] && y == (y + b)[..|y|];
    assert a == (x + a)[|x|..] && b == (y + b)[|y|..];
  }

  lemma {:induction false} EncodeIsInjective(s: string, t: string)
    requires Encode(s) == Encode(t)
    ensures s == t
  {
    if s != "" && t != "" {
      CharEncodingIsPrefixFree(s[0], Encode(s[1..]), t[0], Encode(t[1..]));
      EncodeIsInjective(s[1..], t[1..]);
      assert s == [s[0]] + s[1..] && t == [t[0]] + t[1..];
    }
  }

  lemma {:induction false} EncodeAppend(s: string, t: string)
    ensures Encode(s + t) == Encode(s) + Encode(t)
  {
    if s == "" {
      assert s + t == t;
    } else {
      assert (s + t)[1..] == s[1..] + t;
      EncodeAppend(s[1..], t);
    }
  }

  // ---- chunks ----

  function CharSize(): char -> nat {
    (c: char) => |EncodeChar(c)|
  }

  lemma {:induction false} TotalIsEncodedLength(text: string)
    ensures Total(text, CharSize()) == |Encode(text)|
  {
    if text != "" {
      TotalIsEncodedLength(text[1..]);
    }
  }

  function EncodeAll(chunks: seq<string>): seq<byte> {
    if chunks == [] then [] else Encode(chunks[0]) + EncodeAll(chunks[1..])
  }

  lemma {:induction false} EncodeFlattened(chunks: seq<string>)
    ensures EncodeAll(chunks) == Encode(Flatten(chunks))
  {
    if chunks != [] {
      EncodeFlattened(chunks[1..]);
      EncodeAppend(chunks[0], Flatten(chunks[1..]));
    }
  }

  /** Chunks of whole characters that carry exactly the octets of the text, each within the limit. */
  ghost predicate Carries(chunks: seq<string>, text: string, maxBytes: int) {
    && Flatten(chunks) == text && EncodeAll(chunks) == Encode(text)
    && forall c :: c in chunks ==> c != "" && |Encode(c)| <= maxBytes
  }

  lemma CarriesIsSplit(chunks: seq<string>, text: string, maxBytes: int)
    ensures Carries(chunks, text, maxBytes) <==> IsSplit(chunks, text, CharSize(), maxBytes)
  {
    EncodeFlattened(chunks);
    forall c | c in chunks
      ensures Total(c, CharSize()) == |Encode(c)|
    {
      TotalIsEncodedLength(c);
    }
  }

  /** None is an error: a limit that is not positive, or below the size of one of the characters. */
  method SplitUtf8Chunks(text: string, maxBytes: int) returns (r: Option<seq<string>>)
    ensures r.None? <==> maxBytes <= 0 || exists c :: c in text && |EncodeChar(c)| > maxBytes
    ensures r.Some? ==> Carries(r.value, text, maxBytes)
    ensures r.Some? ==> forall other :: Carries(other, text, maxBytes) ==> |r.value| <= |other|
  {
    if maxBytes <= 0 {
      return None;
    }
    if text == "" {
      return Some([]);
    }
    r := Pack(text, CharSize(), maxBytes);
    if r.Some? {
      CarriesIsSplit(r.value, text, maxBytes);
      forall other | Carries(other, text, maxBytes)
        ensures |r.value| <= |other|
      {
        CarriesIsSplit(other, text, maxBytes);
      }
    } else {
      var c :| c in text && CharSize()(c) > maxBytes;
      assert |EncodeChar(c)| > maxBytes;
    }
  }
}
