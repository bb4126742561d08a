/** The octets that are hashed into a session id. */
module SessionIds {
  import opened Options
  import opened Batching
  import opened Utf8

  const LENGTH_LIMIT: nat := 0x1_0000_0000_0000_0000

  const SEPARATOR: string := "tga-gateway-session-v1\0"

  /** `width` octets, most significant first. */
  function BigEndian(n: nat, width: nat): (r: seq<byte>)
    ensures |r| == width
  {
    if width == 0 then [] else BigEndian(n / 256, width - 1) + [n % 256]
  }

  function FromBigEndian(s: seq<byte>): nat {
    if s == [] then 0 else FromBigEndian(s[..|s| - 1]) * 256 + s[|s| - 1]
  }

  function Power256(width: nat): nat {
    if width == 0 then 1 else 256 * Power256(width - 1)
  }

  lemma {:induction false} BigEndianReadsBack(n: nat, width: nat)
    requires n < Power256(width)
    ensures FromBigEndian(BigEndian(n, width)) == n
  {
    if width > 0 {
      BigEndianReadsBack(n / 256, width - 1);
      var r := BigEndian(n, width);
      assert r[..width - 1] == BigEndian(n / 256, width - 1);
    }
  }

  lemma EightOctets()
    ensures Power256(8) == LENGTH_LIMIT
  {
    assert Power256(4) == 0x1_0000_0000;
    assert Power256(8) == 256 * 256 * 256 * 256 * Power256(4);
  }

  /** None is the error of a length that does not fit eight octets. */
  function EncodePart(value: string): Option<seq<byte>> {
    var encoded := Encode(value);
    if |encoded| >= LENGTH_LIMIT then None else Some(BigEndian(|encoded|, 8) + encoded)
  }

  /** The hashed octets; None is the error of an empty or overlong part. */
  function Payload(principal: string, channel: string, conversation: string): Option<seq<byte>> {
    if principal == "" || channel == "" || conversation == "" then None
    else
      var a, b, c := EncodePart(principal), EncodePart(channel), EncodePart(conversation);
      if a.None? || b.None? || c.None? then None
      else Some(Encode(SEPARATOR) + (a.value + b.value + c.value))
  }

  /** An encoded part can be read off the front of any octets: no two parts share a start. */
  lemma PartIsPrefixFree(v: string, a: seq<byte>, w: string, b: seq<byte>)
    requires EncodePart(v).Some? && EncodePart(w).Some?
    requires EncodePart(v).value + a == EncodePart(w).value + b
    ensures v == w && a == b
  {
    var x, y := Encode(v), Encode(w);
    var all := EncodePart(v).value + a;
    assert all[..8] == BigEndian(|x|, 8) && all[..8] == BigEndian(|y|, 8);
    EightOctets();
    BigEndianReadsBack(|x|, 8);
    BigEndianReadsBack(|y|, 8);
    assert x == all[8..8 + |x|] && y == all[8..8 + |y|];
    assert a == all[8 + |x|..] && b == all[8 + |y|..];
    EncodeIsInjective(v, w);
  }

  lemma ThreePartsAreInjective(p: string, c: string, v: string, p': string, c': string, v': string)
    requires EncodePart(p).Some? && EncodePart(c).Some? && EncodePart(v).Some?
    requires EncodePart(p').Some? && EncodePart(c').Some? && EncodePart(v').Some?
    requires EncodePart(p).value + EncodePart(c).value + EncodePart(v).value
          == EncodePart(p').value + EncodePart(c').value + EncodePart(v').value
    ensures p == p' && c == c' && v == v'
  {
    var a, b, d := EncodePart(p).value, EncodePart(c).value, EncodePart(v).value;
    var a', b', d' := EncodePart(p').value, EncodePart(c').value, EncodePart(v').value;
    assert a + (b + d) == a + b + d && a' + (b' + d') == a' + b' + d';
    PartIsPrefixFree(p, b + d, p', b' + d');
    PartIsPrefixFree(c, d, c', d');
    assert d + [] == d && d' + [] == d';
    PartIsPrefixFree(v, [], v', []);
  }

  lemma DropFront(front: seq<byte>, a: seq<byte>, b: seq<byte>)
    requires front + a == front + b
    ensures a == b
  {
    assert a == (front + a)[|front|..] && b == (front + b)[|front|..];
  }

  /** Two routes that are both accepted hash the same octets only if they are the same route. */
  lemma PayloadIsInjective(p: string, c: string, v: string, p': string, c': string, v': string)
    requires Payload(p, c, v).Some? && Payload(p, c, v) == Payload(p', c', v')
    ensures p == p' && c == c' && v == v'
  {
    DropFront(Encode(SEPARATOR), EncodePart(p).value + EncodePart(c).value + EncodePart(v).value,
              EncodePart(p').value + EncodePart(c').value + EncodePart(v').value);
    ThreePartsAreInjective(p, c, v, p', c', v');
  }

  /** A route has a payload exactly when no part is empty and every part's length fits eight octets. */
  lemma PayloadExists(p: string, c: string, v: string)
    ensures Payload(p, c, v).Some? <==>
      && p != "" && c != "" && v != ""
      && |Encode(p)| < LENGTH_LIMIT && |Encode(c)| < LENGTH_LIMIT && |Encode(v)| < LENGTH_LIMIT
  {
  }

  /** Reads one part off the front: its length in eight octets, then that many octets, then the rest. */
  ghost predicate StartsWithPart(s: seq<byte>, part: string, rest: seq<byte>) {
    && |s| >= 8 && FromBigEndian(s[..8]) == |Encode(part)|
    && s[8..] == Encode(part) + rest
  }

  lemma PartInFront(part: string, rest: seq<byte>)
    requires EncodePart(part).Some?
    ensures StartsWithPart(EncodePart(part).value + rest, part, rest)
  {
    EightOctets();
    BigEndianReadsBack(|Encode(part)|, 8);
    CutFront(BigEndian(|Encode(part)|, 8), Encode(part), rest);
  }

  lemma CutFront(a: seq<byte>, b: seq<byte>, c: seq<byte>)
    ensures (a + b + c)[..|a|] == a && (a + b + c)[|a|..] == b + c
  {
  }

  /** What is hashed, octet by octet: the fixed text, then principal, channel and conversation, each after its
      length. */
  lemma PayloadLayout(p: string, c: string, v: string) returns (parts: seq<byte>, last: seq<byte>, three: seq<byte>)
    requires Payload(p, c, v).Some?
    ensures Payload(p, c, v).value == Encode("tga-gateway-session-v1\0") + three
    ensures StartsWithPart(three, p, parts) && StartsWithPart(parts, c, last) && StartsWithPart(last, v, [])
  {
    var a, b := EncodePart(p).value, EncodePart(c).value;
    last := EncodePart(v).value;
    parts := b + last;
    three := a + parts;
    Regroup(a, b, last);
    PartInFront(p, parts);
    PartInFront(c, last);
    LastPart(v);
  }

  lemma Regroup(a: seq<byte>, b: seq<byte>, c: seq<byte>)
    ensures a + b + c == a + (b + c)
  {
  }

  lemma LastPart(v: string)
    requires EncodePart(v).Some?
    ensures StartsWithPart(EncodePart(v).value, v, [])
  {
    PartInFront(v, []);
    assert EncodePart(v).value + [] == EncodePart(v).value;
  }
}
