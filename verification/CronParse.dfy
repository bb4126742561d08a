/** Reading a five-field cron expression: which texts are accepted, and which values a field allows. */
module CronParse {
  import opened Options
  import opened Texts
  import C = CronSchedule

  // ---- splitting ----

  /** The parts of a text between the separators. */
  function Pieces(s: string, sep: char): (r: seq<string>)
    ensures r != []
  {
    if s == "" then [""]
    else
      var rest := Pieces(s[1..], sep);
      if s[0] == sep then [""] + rest else [[s[0]] + rest[0]] + rest[1..]
  }

  function Join(parts: seq<string>, sep: char): string
    requires parts != []
  {
    if |parts| == 1 then parts[0] else parts[0] + [sep] + Join(parts[1..], sep)
  }

  lemma JoinGrows(c: char, rest: seq<string>, sep: char)
    requires rest != []
    ensures Join([[c] + rest[0]] + rest[1..], sep) == [c] + Join(rest, sep)
  {
    var r := [[c] + rest[0]] + rest[1..];
    assert r[1..] == rest[1..];
    if |rest| > 1 {
      assert [c] + rest[0] + [sep] + Join(rest[1..], sep) == [c] + (rest[0] + [sep] + Join(rest[1..], sep));
    }
  }

  lemma JoinStarts(rest: seq<string>, sep: char)
    requires rest != []
    ensures Join([""] + rest, sep) == [sep] + Join(rest, sep)
  {
    assert ([""] + rest)[1..] == rest;
  }

  /** The pieces are the one way to write the text as texts without the separator, joined. */
  lemma {:induction false} PiecesJoin(s: string, sep: char)
    ensures Join(Pieces(s, sep), sep) == s
    ensures forall p :: p in Pieces(s, sep) ==> sep !in p
  {
    if s != "" {
      PiecesJoin(s[1..], sep);
      var rest := Pieces(s[1..], sep);
      if s[0] == sep {
        JoinStarts(rest, sep);
      } else {
        assert rest[0] in rest;
        JoinGrows(s[0], rest, sep);
      }
    }
  }

  lemma {:induction false} JoinedPieces(parts: seq<string>, sep: char)
    requires parts != [] && forall p :: p in parts ==> sep !in p
    ensures Pieces(Join(parts, sep), sep) == parts
    decreases |parts|
  {
    if |parts| == 1 {
      OnePiece(parts[0], sep);
    } else {
      JoinedPieces(parts[1..], sep);
      FirstPiece(parts[0], Join(parts[1..], sep), sep);
      assert parts[0] in parts;
      assert parts[0] + [sep] + Join(parts[1..], sep) == parts[0] + ([sep] + Join(parts[1..], sep));
    }
  }

  lemma {:induction false} OnePiece(p: string, sep: char)
    requires sep !in p
    ensures Pieces(p, sep) == [p]
  {
    if p != "" {
      OnePiece(p[1..], sep);
      assert [p[0]] + p[1..] == p;
    }
  }

  lemma {:induction false} FirstPiece(p: string, rest: string, sep: char)
    requires sep !in p
    ensures Pieces(p + ([sep] + rest), sep) == [p] + Pieces(rest, sep)
  {
    var s := p + ([sep] + rest);
    if p == "" {
      assert s == [sep] + rest && s[1..] == rest;
    } else {
      assert s[1..] == p[1..] + ([sep] + rest);
      FirstPiece(p[1..], rest, sep);
      assert [p[0]] + p[1..] == p;
    }
  }

  /** The words between white space. */
  function Words(s: string): seq<string> {
    if s == "" then []
    else
      var rest := Words(s[1..]);
      if IsSpace(s[0]) then rest
      else if |s| == 1 || IsSpace(s[1]) || rest == [] then [[s[0]]] + rest
      else [[s[0]] + rest[0]] + rest[1..]
  }

  ghost predicate NoSpace(s: string) {
    forall c :: c in s ==> !IsSpace(c)
  }

  /** White space parts words, at either end and however much of it. */
  lemma {:induction false} WordsApart(a: string, c: char, b: string)
    requires IsSpace(c)
    ensures Words(a + [c] + b) == Words(a) + Words(b)
  {
    var s := a + [c] + b;
    if a == "" {
      assert s[1..] == b;
    } else {
      assert s[1..] == a[1..] + [c] + b;
      WordsApart(a[1..], c, b);
      if |a| == 1 {
        assert a[1..] == "" && s[1] == c;
      } else {
        assert s[1] == a[1];
        WordsOfNonblank(a[1..]);
      }
    }
  }

  lemma {:induction false} WordsOfNonblank(s: string)
    ensures s != "" && !IsSpace(s[0]) ==> Words(s) != []
  {
  }

  /** A text without white space is one word, unless it is empty. */
  lemma {:induction false} WordIsWhole(w: string)
    requires NoSpace(w)
    ensures Words(w) == if w == "" then [] else [w]
  {
    if w != "" {
      assert w[0] in w && w == [w[0]] + w[1..] && (|w| > 1 ==> w[1] in w);
      WordIsWhole(w[1..]);
      if |w| == 1 {
        assert w == [w[0]] && Words(w) == [[w[0]]];
      } else {
        assert Words(w) == [[w[0]] + w[1..]] + [w[1..]][1..];
      }
    }
  }

  // ---- one part of a field ----

  /** The decimal digits of all scripts with their values. */
  type Digits = char -> Option<nat>

  /** The ordinary digits are digits; separators, the star and white space are not. */
  ghost predicate Decimal(t: Digits) {
    && (forall c :: '0' <= c <= '9' ==> t(c) == Some(c as int - '0' as int))
    && t(',') == None && t('/') == None && t('-') == None && t('*') == None
    && (forall c :: IsSpace(c) ==> t(c) == None)
  }

  predicate IsDigits(t: Digits, s: string) {
    s != "" && forall c :: c in s ==> t(c).Some?
  }

  function Digit(t: Digits, c: char): nat {
    if t(c).Some? then t(c).value else 0
  }

  function Number(t: Digits, s: string): nat {
    if s == "" then 0 else Number(t, s[..|s| - 1]) * 10 + Digit(t, s[|s| - 1])
  }

  /** The usual notation of a number. */
  function Show(n: nat): string {
    if n < 10 then [(n + '0' as int) as char] else Show(n / 10) + [(n % 10 + '0' as int) as char]
  }

  lemma {:induction false} ShownNumberIsRead(t: Digits, n: nat)
    requires Decimal(t)
    ensures IsDigits(t, Show(n)) && Number(t, Show(n)) == n
  {
    if n < 10 {
      assert Show(n)[..0] == "";
    } else {
      ShownNumberIsRead(t, n / 10);
      var last := (n % 10 + '0' as int) as char;
      assert Show(n)[..|Show(n)| - 1] == Show(n / 10);
      assert t(last) == Some(n % 10);
    }
  }

  function ParseValue(t: Digits, text: string, min: int, max: int): Option<int> {
    if !IsDigits(t, text) || Number(t, text) < min || Number(t, text) > max then None else Some(Number(t, text))
  }

  /** Every `step`-th number from `start` to `end`. */
  function Span(start: int, end: int, step: nat): set<int>
    requires step > 0
    decreases end - start
  {
    if start > end then {} else {start} + Span(start + step, end, step)
  }

  lemma {:induction false} SpanHolds(start: int, end: int, step: nat, v: int)
    requires step > 0
    ensures v in Span(start, end, step) <==> start <= v <= end && (v - start) % step == 0
    decreases end - start
  {
    if start <= end {
      SpanHolds(start + step, end, step, v);
      NextInStep(v - start, step);
    }
  }

  lemma NextInStep(d: int, step: nat)
    requires step > 0
    ensures d % step == 0 <==> (d - step) % step == 0
    ensures 0 < d < step ==> d % step != 0
  {
    var q, r := d / step, d % step;
    assert d - step == step * (q - 1) + r;
    Remainder(q - 1, r, step);
  }

  lemma Remainder(q: int, r: int, step: nat)
    requires 0 <= r < step
    ensures (step * q + r) % step == r
  {
    var x := step * q + r;
    var d := x / step - q;
    assert step * d == r - x % step;
    Multiples(step, d);
  }

  lemma Multiples(step: int, d: int)
    requires step > 0
    ensures d >= 1 ==> step * d >= step
    ensures d <= -1 ==> step * d <= 0 - step
  {
    if d >= 1 {
      assert step * d == step + step * (d - 1);
    } else if d <= -1 {
      assert step * d == 0 - step + step * (d + 1);
    }
  }

  function SplitStep(t: Digits, part: string): Option<(string, nat)> {
    var slash := Find(part, "/", 0);
    if slash.None? then Some((part, 1))
    else
      var text := part[slash.value + 1..];
      if !IsDigits(t, text) || Number(t, text) == 0 then None else Some((part[..slash.value], Number(t, text)))
  }

  function ParsePart(t: Digits, part: string, min: int, max: int): Option<set<int>> {
    var split := SplitStep(t, part);
    if split.None? then None else ParseRange(t, split.value.0, split.value.1, min, max)
  }

  function ParseRange(t: Digits, text: string, step: nat, min: int, max: int): Option<set<int>> {
    var dash := Find(text, "-", 0);
    if text == "*" then if step > 0 then Some(Span(min, max, step)) else None
    else if dash.Some? then
      var start, end := ParseValue(t, text[..dash.value], min, max), ParseValue(t, text[dash.value + 1..], min, max);
      if start.None? || end.None? || start.value > end.value || step == 0 then None
      else Some(Span(start.value, end.value, step))
    else
      var value := ParseValue(t, text, min, max);
      if value.None? || step != 1 then None else Some({value.value})
  }

  // ---- the grammar of a part ----

  datatype Base = Every | Range(low: string, high: string) | Only(value: string)

  datatype Part = Part(base: Base, step: Option<string>)

  function BaseText(b: Base): string {
    match b
    case Every => "*"
    case Range(low, high) => low + "-" + high
    case Only(value) => value
  }

  function PartText(p: Part): string {
    BaseText(p.base) + if p.step.Some? then "/" + p.step.value else ""
  }

  predicate InBounds(t: Digits, text: string, min: int, max: int) {
    IsDigits(t, text) && min <= Number(t, text) <= max
  }

  /** Numbers are in bounds, ranges do not go down, steps are positive; a single value has no
      other step than one. */
  predicate Legal(t: Digits, p: Part, min: int, max: int) {
    && (p.step.Some? ==> IsDigits(t, p.step.value) && Number(t, p.step.value) > 0)
    && match p.base
       case Every => true
       case Range(low, high) => InBounds(t, low, min, max) && InBounds(t, high, min, max) && Number(t, low) <= Number(t, high)
       case Only(value) => InBounds(t, value, min, max) && Step(t, p) == 1
  }

  function Step(t: Digits, p: Part): nat {
    if p.step.Some? && IsDigits(t, p.step.value) then Number(t, p.step.value) else 1
  }

  /** The values that a legal part allows. */
  ghost predicate Allows(t: Digits, p: Part, min: int, max: int, v: int) {
    Legal(t, p, min, max) &&
    match p.base
    case Every => min <= v <= max && (v - min) % Step(t, p) == 0
    case Range(low, high) => Number(t, low) <= v <= Number(t, high) && (v - Number(t, low)) % Step(t, p) == 0
    case Only(value) => v == Number(t, value)
  }

  lemma FoundAt(a: string, c: char, b: string)
    requires c !in a
    ensures Find(a + [c] + b, [c], 0) == Some(|a|)
    ensures (a + [c] + b)[..|a|] == a && (a + [c] + b)[|a| + 1..] == b
  {
    var s := a + [c] + b;
    assert s[|a|..|a| + 1] == [c];
    assert OccursAt(s, [c], |a|);
    forall i: nat | i < |a|
      ensures !OccursAt(s, [c], i)
    {
      assert s[i..i + 1][0] == a[i] && a[i] in a;
    }
  }

  lemma NotFound(a: string, c: char)
    requires c !in a
    ensures Find(a, [c], 0) == None
  {
    forall i: nat | i + 1 <= |a|
      ensures !OccursAt(a, [c], i)
    {
      assert a[i..i + 1][0] == a[i] && a[i] in a;
    }
  }

  lemma FindSplits(s: string, c: char)
    ensures var k := Find(s, [c], 0);
      k.Some? ==> k.value < |s| && s == s[..k.value] + [c] + s[k.value + 1..]
  {
    var k := Find(s, [c], 0);
    if k.Some? {
      CutsAt(s, c, k.value);
    }
  }

  lemma CutsAt(s: string, c: char, k: nat)
    requires k + 1 <= |s| && s[k..k + 1] == [c]
    ensures s == s[..k] + [c] + s[k + 1..]
  {
    assert s == s[..k] + s[k..k + 1] + s[k + 1..];
  }

  lemma BaseHasNoSlash(t: Digits, p: Part, min: int, max: int)
    requires Decimal(t) && Legal(t, p, min, max)
    ensures '/' !in BaseText(p.base)
  {
  }

  /** A legal part is accepted with exactly the values that it allows. */
  lemma LegalPartIsRead(t: Digits, p: Part, min: int, max: int)
    requires Decimal(t) && Legal(t, p, min, max)
    ensures ParsePart(t, PartText(p), min, max).Some?
    ensures forall v :: v in ParsePart(t, PartText(p), min, max).value <==> Allows(t, p, min, max, v)
  {
    var base := BaseText(p.base);
    BaseHasNoSlash(t, p, min, max);
    if p.step.Some? {
      assert base + ("/" + p.step.value) == base + ['/'] + p.step.value;
      FoundAt(base, '/', p.step.value);
    } else {
      assert base + "" == base;
      NotFound(base, '/');
    }
    assert SplitStep(t, PartText(p)) == Some((base, Step(t, p)));
    BaseIsRead(t, p, min, max);
  }

  lemma EveryIsRead(step: nat, min: int, max: int, t: Digits)
    requires step > 0
    ensures ParseRange(t, "*", step, min, max) == Some(Span(min, max, step))
  {
  }

  lemma DashAt(t: Digits, low: string, high: string)
    requires Decimal(t) && IsDigits(t, low)
    ensures Find(low + "-" + high, "-", 0) == Some(|low|) && low + "-" + high != "*"
    ensures (low + "-" + high)[..|low|] == low && (low + "-" + high)[|low| + 1..] == high
  {
    assert low + "-" + high == low + ['-'] + high;
    FoundAt(low, '-', high);
  }

  lemma RangeIsRead(t: Digits, low: string, high: string, step: nat, min: int, max: int)
    requires Decimal(t) && InBounds(t, low, min, max) && InBounds(t, high, min, max)
    requires Number(t, low) <= Number(t, high) && step > 0
    ensures ParseRange(t, low + "-" + high, step, min, max) == Some(Span(Number(t, low), Number(t, high), step))
  {
    DashAt(t, low, high);
  }

  lemma OnlyIsRead(t: Digits, value: string, min: int, max: int)
    requires Decimal(t) && InBounds(t, value, min, max)
    ensures ParseRange(t, value, 1, min, max) == Some({Number(t, value)})
  {
    NotFound(value, '-');
    assert value[0] in value;
  }

  lemma EveryAllows(t: Digits, p: Part, min: int, max: int)
    requires p.base.Every? && Legal(t, p, min, max)
    ensures forall v :: v in Span(min, max, Step(t, p)) <==> Allows(t, p, min, max, v)
  {
    SpanMembers(min, max, Step(t, p));
  }

  lemma RangeAllows(t: Digits, p: Part, min: int, max: int)
    requires p.base.Range? && Legal(t, p, min, max)
    ensures forall v :: v in Span(Number(t, p.base.low), Number(t, p.base.high), Step(t, p)) <==> Allows(t, p, min, max, v)
  {
    SpanMembers(Number(t, p.base.low), Number(t, p.base.high), Step(t, p));
  }

  lemma BaseIsRead(t: Digits, p: Part, min: int, max: int)
    requires Decimal(t) && Legal(t, p, min, max)
    ensures var r := ParseRange(t, BaseText(p.base), Step(t, p), min, max);
      r.Some? && forall v :: v in r.value <==> Allows(t, p, min, max, v)
  {
    match p.base
    case Every =>
      EveryIsRead(Step(t, p), min, max, t);
      EveryAllows(t, p, min, max);
    case Range(low, high) =>
      RangeIsRead(t, low, high, Step(t, p), min, max);
      RangeAllows(t, p, min, max);
    case Only(value) =>
      OnlyIsRead(t, value, min, max);
  }

  lemma SpanMembers(start: int, end: int, step: nat)
    requires step > 0
    ensures forall v :: v in Span(start, end, step) <==> start <= v <= end && (v - start) % step == 0
  {
    forall v
      ensures v in Span(start, end, step) <==> start <= v <= end && (v - start) % step == 0
    {
      SpanHolds(start, end, step, v);
    }
  }

  lemma ReadRange(t: Digits, text: string, step: Option<string>, min: int, max: int) returns (p: Part)
    requires step.Some? ==> IsDigits(t, step.value) && Number(t, step.value) > 0
    requires var n := if step.Some? then Number(t, step.value) else 1; ParseRange(t, text, n, min, max).Some?
    ensures Legal(t, p, min, max) && BaseText(p.base) == text && p.step == step
  {
    var dash := Find(text, "-", 0);
    if text == "*" {
      p := Part(Every, step);
    } else if dash.Some? {
      FindSplits(text, '-');
      p := Part(Range(text[..dash.value], text[dash.value + 1..]), step);
    } else {
      p := Part(Only(text), step);
    }
  }

  /** A part is accepted exactly when it is the text of a legal part. */
  lemma AcceptedParts(t: Digits, text: string, min: int, max: int)
    requires Decimal(t)
    ensures ParsePart(t, text, min, max).Some? <==> exists p :: Legal(t, p, min, max) && PartText(p) == text
  {
    if ParsePart(t, text, min, max).Some? {
      var slash := Find(text, "/", 0);
      if slash.None? {
        var p := ReadRange(t, text, None, min, max);
        assert PartText(p) == text;
      } else {
        FindSplits(text, '/');
        var p := ReadRange(t, text[..slash.value], Some(text[slash.value + 1..]), min, max);
        assert PartText(p) == text;
      }
    }
    forall p | Legal(t, p, min, max) && PartText(p) == text
      ensures ParsePart(t, text, min, max).Some?
    {
      LegalPartIsRead(t, p, min, max);
    }
  }

  lemma PartWithin(t: Digits, text: string, min: int, max: int)
    requires Decimal(t) && min <= max && ParsePart(t, text, min, max).Some?
    ensures forall v :: v in ParsePart(t, text, min, max).value ==> min <= v <= max
    ensures exists v :: v in ParsePart(t, text, min, max).value
  {
    AcceptedParts(t, text, min, max);
    var p :| Legal(t, p, min, max) && PartText(p) == text;
    LegalPartIsRead(t, p, min, max);
    var first := match p.base case Every => min case Range(low, _) => Number(t, low) case Only(value) => Number(t, value);
    assert Allows(t, p, min, max, first);
  }

  // ---- a field ----

  ghost predicate FieldAccepted(t: Digits, raw: string, min: int, max: int) {
    forall part :: part in Pieces(raw, ',') ==> ParsePart(t, part, min, max).Some?
  }

  ghost predicate FieldAllows(t: Digits, raw: string, min: int, max: int, v: int) {
    exists part :: part in Pieces(raw, ',') && ParsePart(t, part, min, max).Some? && v in ParsePart(t, part, min, max).value
  }

  /** The union of what the parts allow: some value, and none out of bounds. */
  ghost predicate FieldValues(t: Digits, values: set<int>, raw: string, min: int, max: int) {
    && (forall v :: v in values <==> FieldAllows(t, raw, min, max, v))
    && (exists v :: v in values) && (forall v :: v in values ==> min <= v <= max)
  }

  /** Some of the first i parts allows v. */
  ghost predicate AllowedBefore(t: Digits, parts: seq<string>, i: nat, min: int, max: int, v: int)
    requires i <= |parts|
  {
    exists j :: 0 <= j < i && ParsePart(t, parts[j], min, max).Some? && v in ParsePart(t, parts[j], min, max).value
  }

  /** The values of the first i parts, all of which are accepted. */
  ghost predicate Gathered(t: Digits, parts: seq<string>, i: nat, min: int, max: int, values: set<int>)
    requires i <= |parts|
  {
    && (forall j :: 0 <= j < i ==> ParsePart(t, parts[j], min, max).Some?)
    && (forall v :: v in values <==> AllowedBefore(t, parts, i, min, max, v))
  }

  lemma GatherNext(t: Digits, parts: seq<string>, i: nat, min: int, max: int, values: set<int>)
    requires i < |parts| && Gathered(t, parts, i, min, max, values) && ParsePart(t, parts[i], min, max).Some?
    ensures Gathered(t, parts, i + 1, min, max, values + ParsePart(t, parts[i], min, max).value)
  {
    forall v
      ensures AllowedBefore(t, parts, i + 1, min, max, v)
        <==> AllowedBefore(t, parts, i, min, max, v) || v in ParsePart(t, parts[i], min, max).value
    {
      if AllowedBefore(t, parts, i, min, max, v) {
        var j :| 0 <= j < i && ParsePart(t, parts[j], min, max).Some? && v in ParsePart(t, parts[j], min, max).value;
      }
    }
  }

  lemma GatherEnds(t: Digits, raw: string, min: int, max: int, values: set<int>)
    requires Decimal(t) && min <= max
    requires Gathered(t, Pieces(raw, ','), |Pieces(raw, ',')|, min, max, values)
    ensures FieldValues(t, values, raw, min, max) && FieldAccepted(t, raw, min, max)
  {
    var parts := Pieces(raw, ',');
    forall v
      ensures AllowedBefore(t, parts, |parts|, min, max, v) <==> FieldAllows(t, raw, min, max, v)
      ensures AllowedBefore(t, parts, |parts|, min, max, v) ==> min <= v <= max
    {
      if AllowedBefore(t, parts, |parts|, min, max, v) {
        var j :| 0 <= j < |parts| && v in ParsePart(t, parts[j], min, max).value;
        PartWithin(t, parts[j], min, max);
        assert parts[j] in parts;
      }
    }
    PartWithin(t, parts[0], min, max);
    var v0 :| v0 in ParsePart(t, parts[0], min, max).value;
    assert AllowedBefore(t, parts, |parts|, min, max, v0);
  }

  /** None is an error in one of the parts. */
  method ParseField(t: Digits, raw: string, min: int, max: int) returns (r: Option<set<int>>)
    requires Decimal(t) && min <= max
    ensures r.Some? <==> FieldAccepted(t, raw, min, max)
    ensures r.Some? ==> FieldValues(t, r.value, raw, min, max)
  {
    var values: set<int> := {};
    var parts := Pieces(raw, ',');
    for i := 0 to |parts|
      invariant Gathered(t, parts, i, min, max, values)
    {
      var part := ParsePart(t, parts[i], min, max);
      if part.None? {
        assert parts[i] in parts;
        return None;
      }
      GatherNext(t, parts, i, min, max, values);
      values := values + part.value;
    }
    GatherEnds(t, raw, min, max, values);
    r := Some(values);
  }

  /** A field that is one star allows every value. */
  lemma StarAllowsAll(t: Digits, min: int, max: int)
    requires Decimal(t)
    ensures FieldAccepted(t, "*", min, max)
    ensures forall v :: min <= v <= max ==> FieldAllows(t, "*", min, max, v)
  {
    OnePiece("*", ',');
    var p := Part(Every, None);
    assert PartText(p) == "*";
    LegalPartIsRead(t, p, min, max);
    forall v | min <= v <= max
      ensures FieldAllows(t, "*", min, max, v)
    {
      assert Allows(t, p, min, max, v);
      assert "*" in Pieces("*", ',');
    }
  }

  // ---- the expression ----

  /** The bounds of the five fields. */
  const BOUNDS: seq<(int, int)> := [(0, 59), (0, 23), (1, 31), (1, 12), (0, 7)]

  ghost predicate Accepted(t: Digits, fields: seq<string>) {
    |fields| == 5 && forall i :: 0 <= i < 5 ==> FieldAccepted(t, fields[i], BOUNDS[i].0, BOUNDS[i].1)
  }

  /** The value sets of a specification are those of the fields; Sunday may be written 0 or 7. */
  ghost predicate Means(t: Digits, spec: C.CronSpec, fields: seq<string>)
    requires |fields| == 5
  {
    && (forall v :: v in spec.minute <==> FieldAllows(t, fields[0], 0, 59, v))
    && (forall v :: v in spec.hour <==> FieldAllows(t, fields[1], 0, 23, v))
    && (forall v :: v in spec.dayOfMonth <==> FieldAllows(t, fields[2], 1, 31, v))
    && (forall v :: v in spec.month <==> FieldAllows(t, fields[3], 1, 12, v))
    && (forall v :: v in spec.dayOfWeek <==>
          if v == 0 then FieldAllows(t, fields[4], 0, 7, 0) || FieldAllows(t, fields[4], 0, 7, 7)
          else v != 7 && FieldAllows(t, fields[4], 0, 7, v))
    && (spec.domFree <==> fields[2] == "*") && (spec.dowFree <==> fields[4] == "*")
  }

  /** None is an error; every accepted expression is what the search for the next firing expects. */
  method Parse(t: Digits, expression: string) returns (r: Option<C.CronSpec>)
    requires Decimal(t)
    ensures r.Some? <==> Accepted(t, Words(expression))
    ensures r.Some? ==> Means(t, r.value, Words(expression)) && C.ParsedSpec(r.value)
  {
    var fields := Words(expression);
    if |fields| != 5 {
      return None;
    }
    var parsed := ParseFields(t, fields);
    if parsed.None? {
      return None;
    }
    var values := parsed.value;
    var dayOfWeek := set v | v in values[4] :: if v == 7 then 0 else v;
    var spec := C.CronSpec(values[0], values[1], values[2], values[3], dayOfWeek, fields[2] == "*", fields[4] == "*");
    SpecIsParsed(t, spec, fields, values);
    r := Some(spec);
  }

  method ParseFields(t: Digits, fields: seq<string>) returns (r: Option<seq<set<int>>>)
    requires Decimal(t) && |fields| == 5
    ensures r.Some? <==> Accepted(t, fields)
    ensures r.Some? ==> |r.value| == 5
    ensures r.Some? ==> forall j :: 0 <= j < 5 ==> FieldValues(t, r.value[j], fields[j], BOUNDS[j].0, BOUNDS[j].1)
  {
    var values: seq<set<int>> := [];
    for i := 0 to 5
      invariant |values| == i
      invariant forall j :: 0 <= j < i ==> FieldAccepted(t, fields[j], BOUNDS[j].0, BOUNDS[j].1)
      invariant forall j :: 0 <= j < i ==> FieldValues(t, values[j], fields[j], BOUNDS[j].0, BOUNDS[j].1)
    {
      var field := ParseField(t, fields[i], BOUNDS[i].0, BOUNDS[i].1);
      if field.None? {
        return None;
      }
      values := values + [field.value];
    }
    r := Some(values);
  }

  lemma SpecIsParsed(t: Digits, spec: C.CronSpec, fields: seq<string>, values: seq<set<int>>)
    requires Decimal(t) && |fields| == 5 == |values|
    requires forall j :: 0 <= j < 5 ==> FieldValues(t, values[j], fields[j], BOUNDS[j].0, BOUNDS[j].1)
    requires spec == C.CronSpec(values[0], values[1], values[2], values[3],
      set v | v in values[4] :: if v == 7 then 0 else v, fields[2] == "*", fields[4] == "*")
    ensures Means(t, spec, fields) && C.ParsedSpec(spec)
  {
    assert FieldValues(t, values[0], fields[0], 0, 59) && FieldValues(t, values[1], fields[1], 0, 23);
    assert FieldValues(t, values[2], fields[2], 1, 31) && FieldValues(t, values[3], fields[3], 1, 12);
    assert FieldValues(t, values[4], fields[4], 0, 7);
    StarAllowsAll(t, 1, 31);
    StarAllowsAll(t, 0, 7);
    var v4 :| v4 in values[4];
    assert (if v4 == 7 then 0 else v4) in spec.dayOfWeek;
  }
}
