/** The text operations of the source language that the parsers use. */
module Texts {
  import opened Options

  /** White space as trimming and splitting see it. */
  predicate IsSpace(c: char) {
    var n := c as int;
    || 0x09 <= n <= 0x0D || 0x1C <= n <= 0x20 || n == 0x85 || n == 0xA0 || n == 0x1680
    || 0x2000 <= n <= 0x200A || n == 0x2028 || n == 0x2029 || n == 0x202F || n == 0x205F || n == 0x3000
  }

  /** The characters that end a line. */
  predicate IsBreak(c: char) {
    var n := c as int;
    0x0A <= n <= 0x0D || 0x1C <= n <= 0x1E || n == 0x85 || n == 0x2028 || n == 0x2029
  }

  ghost predicate OneLine(s: string) {
    forall c :: c in s ==> !IsBreak(c)
  }

  function TrimLeft(s: string, p: char -> bool): string {
    if s == "" || !p(s[0]) then s else TrimLeft(s[1..], p)
  }

  function TrimRight(s: string, p: char -> bool): string {
    if s == "" || !p(s[|s| - 1]) then s else TrimRight(s[..|s| - 1], p)
  }

  function Strip(s: string): string {
    TrimRight(TrimLeft(s, IsSpace), IsSpace)
  }

  /** Nothing to trim. */
  predicate Trimmed(s: string) {
    s == "" || (!IsSpace(s[0]) && !IsSpace(s[|s| - 1]))
  }

  lemma {:induction false} TrimLeftFacts(s: string, p: char -> bool)
    ensures var r := TrimLeft(s, p); |r| <= |s| && r == s[|s| - |r|..] && (r == "" || !p(r[0]))
  {
    if s != "" && p(s[0]) {
      TrimLeftFacts(s[1..], p);
      var r := TrimLeft(s[1..], p);
      assert s[1..][|s| - 1 - |r|..] == s[|s| - |r|..];
    }
  }

  lemma {:induction false} TrimRightFacts(s: string, p: char -> bool)
    ensures var r := TrimRight(s, p); r <= s && (r == "" || !p(r[|r| - 1]))
  {
    if s != "" && p(s[|s| - 1]) {
      TrimRightFacts(s[..|s| - 1], p);
    }
  }

  lemma StripFacts(s: string)
    ensures Trimmed(Strip(s)) && |Strip(s)| <= |s|
    ensures forall c :: c in Strip(s) ==> c in s
    ensures Trimmed(s) <==> Strip(s) == s
  {
    var l := TrimLeft(s, IsSpace);
    TrimLeftFacts(s, IsSpace);
    TrimRightFacts(l, IsSpace);
    var r := Strip(s);
    if r != "" {
      assert r[0] == l[0];
    }
    forall c | c in r
      ensures c in s
    {
      assert c in l;
    }
  }

  lemma StripAfterSpace(s: string)
    ensures Strip(" " + s) == Strip(s)
  {
    assert (" " + s)[1..] == s;
  }

  /** The least position from `from` on at which `pattern` occurs. */
  function Find(s: string, pattern: string, from: nat): (r: Option<nat>)
    ensures r.Some? ==> from <= r.value && OccursAt(s, pattern, r.value)
    ensures forall i: nat :: from <= i && OccursAt(s, pattern, i) ==> r.Some? && r.value <= i
    decreases |s| - from
  {
    if from + |pattern| > |s| then None
    else if s[from..from + |pattern|] == pattern then Some(from)
    else Find(s, pattern, from + 1)
  }

  predicate OccursAt(s: string, pattern: string, i: nat) {
    i + |pattern| <= |s| && s[i..i + |pattern|] == pattern
  }

  /** The position of the first line break, or the length. */
  function LineEnd(s: string): (k: nat)
    ensures k <= |s| && OneLine(s[..k]) && (k < |s| ==> IsBreak(s[k]))
  {
    if s == "" || IsBreak(s[0]) then 0
    else
      var k := LineEnd(s[1..]);
      assert s[..k + 1] == [s[0]] + s[1..][..k];
      k + 1
  }

  /** Where the next line starts; a carriage return takes a line feed after it along. */
  function NextLine(s: string, k: nat): (r: nat)
    requires k < |s|
    ensures k < r <= |s|
  {
    if s[k] == '\r' && k + 1 < |s| && s[k + 1] == '\n' then k + 2 else k + 1
  }

  function SplitLines(s: string): (lines: seq<string>)
    ensures forall line :: line in lines ==> OneLine(line)
    decreases |s|
  {
    if s == "" then []
    else
      var k := LineEnd(s);
      if k == |s| then assert s[..k] == s; [s] else [s[..k]] + SplitLines(s[NextLine(s, k)..])
  }

  lemma {:induction false} LineEndsAt(a: string, b: string)
    requires OneLine(a) && (b == "" || IsBreak(b[0]))
    ensures LineEnd(a + b) == |a|
  {
    if a == "" {
      assert a + b == b;
    } else {
      assert a[0] in a && (a + b)[1..] == a[1..] + b;
      LineEndsAt(a[1..], b);
    }
  }

  lemma TwoLines(a: string, b: string)
    requires OneLine(a) && OneLine(b) && b != ""
    ensures SplitLines(a + "\n" + b) == [a, b]
  {
    var s := a + "\n" + b;
    assert s == a + ("\n" + b);
    LineEndsAt(a, "\n" + b);
    assert s[..|a|] == a && s[|a|] == '\n';
    assert s[|a| + 1..] == b;
    assert b + "" == b;
    LineEndsAt(b, "");
  }

  /** Trimming takes away white space at both ends and nothing else. */
  lemma StripCuts(s: string) returns (front: string, back: string)
    ensures s == front + Strip(s) + back
    ensures forall c :: c in front || c in back ==> IsSpace(c)
  {
    front := CutLeft(s, IsSpace);
    back := CutRight(TrimLeft(s, IsSpace), IsSpace);
  }

  lemma {:induction false} CutLeft(s: string, p: char -> bool) returns (front: string)
    ensures s == front + TrimLeft(s, p) && forall c :: c in front ==> p(c)
  {
    front := "";
    if s != "" && p(s[0]) {
      var rest := CutLeft(s[1..], p);
      front := [s[0]] + rest;
    }
  }

  lemma {:induction false} CutRight(s: string, p: char -> bool) returns (back: string)
    ensures s == TrimRight(s, p) + back && forall c :: c in back ==> p(c)
  {
    back := "";
    if s != "" && p(s[|s| - 1]) {
      var rest := CutRight(s[..|s| - 1], p);
      back := rest + [s[|s| - 1]];
    }
  }
}
