/** Reading an argument such as `/dev/sd{a...d}{1...4}`: where its ellipses are and what ranges
    they stand for. */
module Patterns {
  import opened Objects
  import opened Alpha
  import opened Ellipsis

  // ---------------------------------------------------------------- braces

  /** Literal text and the `{body}` behind it. */
  datatype Segment = Segment(literal: string, body: string)

  datatype Cut = Segments(segments: seq<Segment>, tail: string)

  function Render(segments: seq<Segment>, tail: string): string {
    if segments == [] then tail
    else segments[0].literal + ("{" + (segments[0].body + ("}" + Render(segments[1..], tail))))
  }

  ghost predicate BraceFree(s: string) {
    '{' !in s && '}' !in s
  }

  /** Text behind the last ellipsis: at most one brace, left open. */
  ghost predicate OpenEnded(s: string) {
    BraceFree(s) || exists k :: 0 <= k < |s| && s[k] == '{' && BraceFree(s[..k]) && BraceFree(s[k + 1..])
  }

  ghost predicate WellBraced(segments: seq<Segment>, tail: string) {
    && (forall i :: 0 <= i < |segments| ==> BraceFree(segments[i].literal) && BraceFree(segments[i].body))
    && OpenEnded(tail)
  }

  /** The source's scan: `literal` and, inside braces, `body` have been read since the last
      ellipsis. Nested and unopened braces have no reading. */
  function Scan(rest: string, literal: string, body: Option<string>): Option<Cut> {
    if rest == "" then Some(Segments([], Pending(literal, body)))
    else if rest[0] == '{' then
      if body.Some? then None else Scan(rest[1..], literal, Some(""))
    else if rest[0] == '}' then
      if body.None? then None
      else Prepend([Segment(literal, body.value)], Scan(rest[1..], "", None))
    else if body.Some? then Scan(rest[1..], literal, Some(body.value + [rest[0]]))
    else Scan(rest[1..], literal + [rest[0]], None)
  }

  function Pending(literal: string, body: Option<string>): string {
    if body.Some? then literal + ("{" + body.value) else literal
  }

  function Prepend(segments: seq<Segment>, cut: Option<Cut>): Option<Cut> {
    if cut.None? then None else Some(Segments(segments + cut.value.segments, cut.value.tail))
  }

  function Reading(arg: string): Option<Cut> {
    Scan(arg, "", None)
  }

  ghost predicate BraceFreeBody(body: Option<string>) {
    body.Some? ==> BraceFree(body.value)
  }

  lemma OpenEndedPending(literal: string, body: Option<string>)
    requires BraceFree(literal) && BraceFreeBody(body)
    ensures OpenEnded(Pending(literal, body))
  {
    if body.Some? {
      var s := Pending(literal, body);
      assert s[..|literal|] == literal && s[|literal| + 1..] == body.value && s[|literal|] == '{';
    }
  }

  lemma BraceFreeMore(s: string, c: char)
    requires BraceFree(s) && c != '{' && c != '}'
    ensures BraceFree(s + [c])
  {
  }

  lemma Reassociate(a: string, b: string, c: string)
    ensures (a + b) + c == a + (b + c)
  {
  }

  lemma FirstAndRest(s: string)
    requires s != ""
    ensures s == [s[0]] + s[1..]
  {
  }

  lemma RenderFirst(s: Segment, segments: seq<Segment>, tail: string)
    ensures Render([s] + segments, tail) == s.literal + ("{" + (s.body + ("}" + Render(segments, tail))))
  {
    assert ([s] + segments)[1..] == segments;
  }

  ghost predicate Covers(cut: Option<Cut>, text: string) {
    cut.Some? ==>
      Render(cut.value.segments, cut.value.tail) == text && WellBraced(cut.value.segments, cut.value.tail)
  }

  lemma PrependCovers(s: Segment, cut: Option<Cut>, text: string)
    requires BraceFree(s.literal) && BraceFree(s.body) && Covers(cut, text)
    ensures Covers(Prepend([s], cut), s.literal + ("{" + (s.body + ("}" + text))))
  {
    if cut.Some? {
      RenderFirst(s, cut.value.segments, cut.value.tail);
      var all := [s] + cut.value.segments;
      forall i | 0 <= i < |all| ensures BraceFree(all[i].literal) && BraceFree(all[i].body) {
        if i > 0 { assert all[i] == cut.value.segments[i - 1]; }
      }
    }
  }

  /** What a scan accepts is the text it had pending and the text it read. */
  lemma {:induction false} ScanCovers(rest: string, literal: string, body: Option<string>)
    requires BraceFree(literal) && BraceFreeBody(body)
    ensures Covers(Scan(rest, literal, body), Pending(literal, body) + rest)
    decreases |rest|
  {
    if rest == "" {
      OpenEndedPending(literal, body);
      assert Pending(literal, body) + rest == Pending(literal, body);
    } else {
      var c, more := rest[0], rest[1..];
      FirstAndRest(rest);
      Reassociate(Pending(literal, body), [c], more);
      if c == '{' {
        if body.None? {
          ScanCovers(more, literal, Some(""));
          assert "{" + "" == "{";
        }
      } else if c == '}' {
        if body.Some? {
          ScanCovers(more, "", None);
          assert Pending("", None) + more == more;
          PrependCovers(Segment(literal, body.value), Scan(more, "", None), more);
          Reassociate(literal, "{" + body.value, rest);
          Reassociate("{", body.value, rest);
        }
      } else if body.Some? {
        BraceFreeMore(body.value, c);
        ScanCovers(more, literal, Some(body.value + [c]));
        Reassociate("{", body.value, [c]);
        Reassociate(literal, "{" + body.value, [c]);
      } else {
        BraceFreeMore(literal, c);
        ScanCovers(more, literal + [c], None);
      }
    }
  }

  lemma {:induction false} ScanLiteral(x: string, rest: string, literal: string)
    requires BraceFree(x)
    ensures Scan(x + rest, literal, None) == Scan(rest, literal + x, None)
    decreases |x|
  {
    if x == "" {
      assert x + rest == rest && literal + x == literal;
    } else {
      assert x[0] in x && x == [x[0]] + x[1..];
      assert (x + rest)[0] == x[0] && (x + rest)[1..] == x[1..] + rest;
      assert literal + x == literal + [x[0]] + x[1..];
      ScanLiteral(x[1..], rest, literal + [x[0]]);
    }
  }

  lemma {:induction false} ScanBody(x: string, rest: string, literal: string, body: string)
    requires BraceFree(x)
    ensures Scan(x + rest, literal, Some(body)) == Scan(rest, literal, Some(body + x))
    decreases |x|
  {
    if x == "" {
      assert x + rest == rest && body + x == body;
    } else {
      assert x[0] in x && x == [x[0]] + x[1..];
      assert (x + rest)[0] == x[0] && (x + rest)[1..] == x[1..] + rest;
      assert body + x == body + [x[0]] + x[1..];
      ScanBody(x[1..], rest, literal, body + [x[0]]);
    }
  }

  lemma ScanTail(tail: string)
    requires OpenEnded(tail)
    ensures Scan(tail, "", None) == Some(Segments([], tail))
  {
    if BraceFree(tail) {
      ScanLiteral(tail, "", "");
      assert tail + "" == tail && "" + tail == tail;
    } else {
      var k :| 0 <= k < |tail| && tail[k] == '{' && BraceFree(tail[..k]) && BraceFree(tail[k + 1..]);
      assert tail == tail[..k] + ("{" + tail[k + 1..]);
      ScanOpen(tail[..k], tail[k + 1..]);
    }
  }

  lemma ScanOpen(literal: string, open: string)
    requires BraceFree(literal) && BraceFree(open)
    ensures Scan(literal + ("{" + open), "", None) == Some(Segments([], literal + ("{" + open)))
  {
    var rest := "{" + open;
    assert rest[1..] == open;
    ScanLiteral(literal, rest, "");
    assert "" + literal == literal;
    ScanBody(open, "", literal, "");
    assert open + "" == open && "" + open == open;
  }

  lemma ScanSegment(s: Segment, rest: string)
    requires BraceFree(s.literal) && BraceFree(s.body)
    ensures Scan(s.literal + ("{" + (s.body + ("}" + rest))), "", None) == Prepend([s], Scan(rest, "", None))
  {
    var closed := "}" + rest;
    var braced := "{" + (s.body + closed);
    ScanLiteral(s.literal, braced, "");
    assert "" + s.literal == s.literal && braced[1..] == s.body + closed;
    ScanBody(s.body, closed, s.literal, "");
    assert "" + s.body == s.body && closed[1..] == rest;
  }

  lemma {:induction false} ScanOfRender(segments: seq<Segment>, tail: string)
    requires WellBraced(segments, tail)
    ensures Reading(Render(segments, tail)) == Some(Segments(segments, tail))
  {
    if segments == [] {
      ScanTail(tail);
    } else {
      assert segments == [segments[0]] + segments[1..];
      ScanSegment(segments[0], Render(segments[1..], tail));
      ScanOfRender(segments[1..], tail);
    }
  }

  /** An argument is accepted with segments and tail exactly if it is those segments and that tail
      written one behind the other with well-placed braces, so no character is lost or moved. */
  lemma ReadingExactly(arg: string, segments: seq<Segment>, tail: string)
    ensures Reading(arg) == Some(Segments(segments, tail))
       <==> WellBraced(segments, tail) && Render(segments, tail) == arg
  {
    if Reading(arg).Some? {
      ScanCovers(arg, "", None);
      assert Pending("", None) + arg == arg;
    }
    if WellBraced(segments, tail) && Render(segments, tail) == arg {
      ScanOfRender(segments, tail);
    }
  }

  // ---------------------------------------------------------------- ranges

  datatype Range = Range(start: nat, end: nat, isAlpha: bool)

  predicate IsDecimal(s: string) {
    s != "" && forall i :: 0 <= i < |s| ==> '0' <= s[i] <= '9'
  }

  function DecimalValue(s: string): nat
    requires forall i :: 0 <= i < |s| ==> '0' <= s[i] <= '9'
  {
    if s == "" then 0 else 10 * DecimalValue(s[..|s| - 1]) + (s[|s| - 1] as int - 48)
  }

  /** A decimal number of the word, else letters, whose value wraps, else an error. */
  function ParseValue(s: string): (r: Option<(nat, bool)>)
    ensures r.Some? ==> r.value.0 < WORD
  {
    if IsDecimal(s) && DecimalValue(s) < WORD then Some((DecimalValue(s), false))
    else if s != "" && IsAlpha(s) then Some((Value(s) % WORD, true))
    else None
  }

  predicate DotsAt(s: string, k: nat) {
    k + 3 <= |s| && s[k] == '.' && s[k + 1] == '.' && s[k + 2] == '.'
  }

  /** Where `...` first occurs. */
  function Dots(s: string): (k: Option<nat>)
    ensures k.Some? ==> DotsAt(s, k.value) && forall j: nat :: j < k.value ==> !DotsAt(s, j)
    ensures k.None? ==> forall j: nat :: !DotsAt(s, j)
  {
    if |s| < 3 then None
    else if s[..3] == "..." then Some(0)
    else
      var k := Dots(s[1..]);
      assert forall j: nat :: j > 0 ==> (DotsAt(s, j) <==> DotsAt(s[1..], j - 1));
      if k.None? then None else Some(k.value + 1)
  }

  /** Start and end of a range: the texts before the first and before the second `...`. What
      stands behind the second is not looked at. */
  function Tokens(body: string): Option<(string, string)> {
    var k := Dots(body);
    if k.None? then None
    else
      var rest := body[k.value + 3..];
      var next := Dots(rest);
      Some((body[..k.value], if next.None? then rest else rest[..next.value]))
  }

  function ParseBody(body: string): (r: Option<Range>)
    ensures r.Some? ==> r.value.start <= r.value.end < WORD
  {
    var tokens := Tokens(body);
    if tokens.None? then None
    else
      var start, end := ParseValue(tokens.value.0), ParseValue(tokens.value.1);
      if start.None? || end.None? || start.value.1 != end.value.1 then None
      else if start.value.0 > end.value.0 then Some(Range(end.value.0, start.value.0, start.value.1))
      else Some(Range(start.value.0, end.value.0, start.value.1))
  }

  /** The text is a decimal number of the word, or letters and then their value wrapped to the word. */
  ghost predicate Reads(s: string, n: nat, isAlpha: bool) {
    && s != ""
    && if isAlpha then (forall i :: 0 <= i < |s| ==> 'a' <= s[i] <= 'z') && n == Value(s) % WORD
       else (forall i :: 0 <= i < |s| ==> '0' <= s[i] <= '9') && n == DecimalValue(s) < WORD
  }

  /** `s` up to its first `...`, or all of it. */
  ghost predicate UpToDots(s: string, t: string) {
    && t <= s && (forall j: nat :: j < |t| ==> !DotsAt(s, j))
    && (t == s || DotsAt(s, |t|))
  }

  /** The body is `a...b` with nothing or a further `...` behind. */
  ghost predicate Spans(body: string, a: string, b: string) {
    UpToDots(body, a) && DotsAt(body, |a|) && UpToDots(body[|a| + 3..], b)
  }

  ghost predicate Bounds(a: string, b: string, m: nat, n: nat, r: Range) {
    && Reads(a, m, r.isAlpha) && Reads(b, n, r.isAlpha)
    && r.start == (if m <= n then m else n) && r.end == (if m <= n then n else m)
  }

  lemma ReadsExactly(s: string, n: nat, isAlpha: bool)
    ensures ParseValue(s) == Some((n, isAlpha)) <==> Reads(s, n, isAlpha)
  {
    if s != "" {
      var c := s[0];
      assert '0' <= c <= '9' ==> !('a' <= c <= 'z');
    }
  }

  lemma TokensExactly(body: string, a: string, b: string)
    ensures Tokens(body) == Some((a, b)) <==> Spans(body, a, b)
  {
    if Spans(body, a, b) {
      assert a == body[..|a|];
      assert Dots(body) == Some(|a|);
      var rest := body[|a| + 3..];
      assert b == rest[..|b|];
      if Dots(rest).None? || Dots(rest).value != |b| {
        assert b == rest;
      }
    }
  }

  /** A body has a range exactly if both its ends read as numbers of one kind; it runs from the smaller to
      the larger. */
  lemma BodyExactly(body: string, r: Range)
    ensures ParseBody(body) == Some(r) <==>
            exists a, b, m: nat, n: nat :: Spans(body, a, b) && Bounds(a, b, m, n, r)
  {
    if a, b, m: nat, n: nat :| Spans(body, a, b) && Bounds(a, b, m, n, r) {
      TokensExactly(body, a, b);
      ReadsExactly(a, m, r.isAlpha);
      ReadsExactly(b, n, r.isAlpha);
    }
    if ParseBody(body) == Some(r) {
      var (a, b) := Tokens(body).value;
      TokensExactly(body, a, b);
      var m, n := ParseValue(a).value.0, ParseValue(b).value.0;
      ReadsExactly(a, m, r.isAlpha);
      ReadsExactly(b, n, r.isAlpha);
      assert Bounds(a, b, m, n, r);
    }
  }

  // ---------------------------------------------------------------- what is printed can be read

  /** The text get prints for a number. */
  function Numeral(n: nat, isAlpha: bool): string {
    if isAlpha then AlphaText(n) else Decimal(n)
  }

  /** The numeral is the usual one, without leading zeros... */
  lemma DecimalDigits(n: nat)
    ensures Decimal(n) == (if n < 10 then "" else Decimal(n / 10)) + [DIGITS[n % 10]]
  {
    DigitChar(n % 10);
  }

  const DIGITS: string := "0123456789"

  lemma DigitChar(d: nat)
    requires d < 10
    ensures DIGITS[d] == (d + 48) as char
  {
  }

  /** ...and is read back. */
  lemma {:induction false} DecimalRoundTrip(n: nat)
    ensures IsDecimal(Decimal(n)) && DecimalValue(Decimal(n)) == n
  {
    var s := Decimal(n);
    if n < 10 {
      assert s[..0] == "" && DecimalValue(s) == 10 * DecimalValue("") + n;
    } else {
      DecimalRoundTrip(n / 10);
      assert s[..|s| - 1] == Decimal(n / 10);
    }
  }

  ghost predicate Plain(s: string) {
    forall i :: 0 <= i < |s| ==> 'a' <= s[i] <= 'z' || '0' <= s[i] <= '9'
  }

  lemma NumeralRoundTrip(n: nat, isAlpha: bool)
    requires n < WORD && (isAlpha ==> n > 0)
    ensures ParseValue(Numeral(n, isAlpha)) == Some((n, isAlpha)) && Plain(Numeral(n, isAlpha))
  {
    if isAlpha {
      NumberRoundTrip(n);
      var s := AlphaText(n);
      assert 'a' <= s[0] <= 'z';
      assert !IsDecimal(s);
    } else {
      DecimalRoundTrip(n);
    }
  }

  lemma {:induction false} NoDots(s: string)
    requires Plain(s)
    ensures Dots(s) == None
  {
    if |s| >= 3 {
      assert s[..3][0] == s[0] != '.';
      NoDots(s[1..]);
    }
  }

  lemma {:induction false} FirstDots(s: string, rest: string)
    requires Plain(s)
    ensures Dots(s + ("..." + rest)) == Some(|s|)
  {
    var t := s + ("..." + rest);
    if s == "" {
      assert t == "..." + rest && t[..3] == "...";
    } else {
      assert t[..3][0] == s[0] != '.';
      assert t[1..] == s[1..] + ("..." + rest);
      FirstDots(s[1..], rest);
    }
  }

  function Body(r: Range): string {
    Numeral(r.start, r.isAlpha) + ("..." + Numeral(r.end, r.isAlpha))
  }

  predicate Readable(r: Range) {
    r.start < WORD && r.end < WORD && (r.isAlpha ==> r.start > 0 && r.end > 0)
  }

  /** A range written out is read as that range, smaller end first. */
  lemma BodyRoundTrip(r: Range)
    requires Readable(r)
    ensures BraceFree(Body(r))
    ensures ParseBody(Body(r)) == Some(if r.start <= r.end then r else Range(r.end, r.start, r.isAlpha))
  {
    var a, b := Numeral(r.start, r.isAlpha), Numeral(r.end, r.isAlpha);
    NumeralRoundTrip(r.start, r.isAlpha);
    NumeralRoundTrip(r.end, r.isAlpha);
    FirstDots(a, b);
    NoDots(b);
    BodyParts(a, b);
  }

  lemma BodyParts(a: string, b: string)
    requires Plain(a) && Plain(b)
    ensures
      var s := a + ("..." + b);
      s[..|a|] == a && s[|a| + 3..] == b && BraceFree(s)
  {
    var s := a + ("..." + b);
    assert s[|a| + 3..] == b;
    forall i | 0 <= i < |s| ensures s[i] != '{' && s[i] != '}' {
      assert s[i] == if i < |a| then a[i] else if i < |a| + 3 then '.' else b[i - |a| - 3];
    }
  }

  // ---------------------------------------------------------------- the whole argument

  datatype Expansion = Rejected | Endless | Listed(texts: seq<string>)

  function RangesOf(segments: seq<Segment>): Option<seq<Range>> {
    if segments == [] then Some([])
    else
      var r, rest := ParseBody(segments[0].body), RangesOf(segments[1..]);
      if r.None? || rest.None? then None else Some([r.value] + rest.value)
  }

  lemma {:induction false} RangesOfEach(segments: seq<Segment>)
    ensures RangesOf(segments).Some? <==> AllParse(segments)
    ensures RangesOf(segments).Some? ==> Matches(segments, RangesOf(segments).value)
  {
    if segments != [] {
      var more := segments[1..];
      RangesOfEach(more);
      assert AllParse(segments) <==> ParseBody(segments[0].body).Some? && AllParse(more) by {
        assert forall i :: 0 < i < |segments| ==> segments[i] == more[i - 1];
      }
      if RangesOf(segments).Some? {
        MatchesMore(segments, ParseBody(segments[0].body).value, RangesOf(more).value);
      }
    }
  }

  ghost predicate AllParse(segments: seq<Segment>) {
    forall i :: 0 <= i < |segments| ==> ParseBody(segments[i].body).Some?
  }

  ghost predicate Matches(segments: seq<Segment>, ranges: seq<Range>) {
    && |ranges| == |segments|
    && forall i :: 0 <= i < |segments| ==> ParseBody(segments[i].body) == Some(ranges[i])
  }

  lemma MatchesMore(segments: seq<Segment>, r: Range, ranges: seq<Range>)
    requires segments != [] && ParseBody(segments[0].body) == Some(r) && Matches(segments[1..], ranges)
    ensures Matches(segments, [r] + ranges)
  {
    forall i | 0 <= i < |segments| ensures ParseBody(segments[i].body) == Some(([r] + ranges)[i]) {
      if i > 0 {
        assert ParseBody(segments[1..][i - 1].body) == Some(ranges[i - 1]);
      }
    }
  }

  /** The chain: every ellipsis carries the text before it, the last one also the text behind. */
  function Chain(segments: seq<Segment>, ranges: seq<Range>, tail: string): seq<Cell>
    requires |segments| == |ranges|
  {
    seq(|segments|, i requires 0 <= i < |segments| =>
      Cell(ranges[i].start, ranges[i].end, ranges[i].isAlpha, segments[i].literal,
           if i == |segments| - 1 then tail else "", ranges[i].start))
  }

  predicate AnyEndless(ranges: seq<Range>) {
    exists i :: 0 <= i < |ranges| && ranges[i].end == WORD - 1
  }

  /** What an argument stands for, by its segments alone. */
  function Meaning(arg: string): Expansion {
    var cut := Reading(arg);
    if cut.None? then Rejected
    else
      var segments := cut.value.segments;
      var ranges := RangesOf(segments);
      if ranges.None? then Rejected
      else if segments == [] then Listed([arg])
      else if AnyEndless(ranges.value) then Endless
      else
        RangesOfEach(segments);
        Listed(Product(Chain(segments, ranges.value, cut.value.tail), ""))
  }

  function Literals(segments: seq<Segment>): seq<string> {
    seq(|segments|, i requires 0 <= i < |segments| => segments[i].literal)
  }

  /** How many texts the ranges make. */
  function Count(ranges: seq<Range>): nat {
    if ranges == [] then 1
    else (if ranges[0].start <= ranges[0].end then ranges[0].end - ranges[0].start + 1 else 0) * Count(ranges[1..])
  }

  /** The `i`-th text: each literal with a numeral behind it, and then the tail. The numerals stand for the
      digits of `i` when the ranges are the digits' places, the last one counting fastest. */
  function Spelled(literals: seq<string>, ranges: seq<Range>, tail: string, i: nat): string
    requires |literals| == |ranges| && i < Count(ranges)
  {
    if ranges == [] then tail
    else
      var n := Count(ranges[1..]);
      literals[0] + (Numeral(ranges[0].start + i / n, ranges[0].isAlpha)
                     + Spelled(literals[1..], ranges[1..], tail, i % n))
  }

  lemma {:induction false} SizeIsCount(segments: seq<Segment>, ranges: seq<Range>, tail: string)
    requires |segments| == |ranges|
    ensures Size(Chain(segments, ranges, tail)) == Count(ranges)
  {
    if ranges != [] {
      SizeIsCount(segments[1..], ranges[1..], tail);
      assert Chain(segments, ranges, tail)[1..] == Chain(segments[1..], ranges[1..], tail);
    }
  }

  lemma CombinationFirst(cells: seq<Cell>, i: nat, k: nat, j: nat, p: string)
    requires cells != [] && i < Size(cells)
    requires Size(cells[1..]) > 0 && k == i / Size(cells[1..]) && j == i % Size(cells[1..])
    ensures Combination(cells, i, p) == Combination(cells[1..], j, p + Show(cells[0], cells[0].start + k))
  {
  }

  lemma SpelledFirst(literals: seq<string>, ranges: seq<Range>, tail: string, i: nat, k: nat, j: nat)
    requires |literals| == |ranges| > 0 && i < Count(ranges)
    requires Count(ranges[1..]) > 0 && k == i / Count(ranges[1..]) && j == i % Count(ranges[1..])
    ensures Spelled(literals, ranges, tail, i) ==
            literals[0] + (Numeral(ranges[0].start + k, ranges[0].isAlpha) + Spelled(literals[1..], ranges[1..], tail, j))
  {
  }

  /** What is printed behind `p` for the first ellipsis, with the text that belongs to it. */
  function FirstText(segments: seq<Segment>, ranges: seq<Range>, tail: string, k: nat, p: string): string
    requires |segments| == |ranges| > 0
  {
    p + (segments[0].literal + Numeral(ranges[0].start + k, ranges[0].isAlpha) + (if |segments| == 1 then tail else ""))
  }

  lemma BothFirst(segments: seq<Segment>, ranges: seq<Range>, tail: string, i: nat, p: string) returns (k: nat, j: nat)
    requires |segments| == |ranges| > 0 && i < Count(ranges)
    ensures j < Count(ranges[1..]) == Size(Chain(segments[1..], ranges[1..], tail)) && i < Size(Chain(segments, ranges, tail))
    ensures Combination(Chain(segments, ranges, tail), i, p) ==
            Combination(Chain(segments[1..], ranges[1..], tail), j, FirstText(segments, ranges, tail, k, p))
    ensures Spelled(Literals(segments), ranges, tail, i) ==
            segments[0].literal + (Numeral(ranges[0].start + k, ranges[0].isAlpha)
                                   + Spelled(Literals(segments[1..]), ranges[1..], tail, j))
  {
    var n := Count(ranges[1..]);
    DigitsBelow(i, ranges[0].end - ranges[0].start + 1, n);
    k, j := i / n, i % n;
    SizeIsCount(segments[1..], ranges[1..], tail);
    ChainStep(segments, ranges, tail, i, k, j, p);
    ChainFirst(segments, ranges, tail);
    SpelledFirst(Literals(segments), ranges, tail, i, k, j);
  }

  lemma ChainStep(segments: seq<Segment>, ranges: seq<Range>, tail: string, i: nat, k: nat, j: nat, p: string)
    requires |segments| == |ranges| > 0 && i < Count(ranges)
    requires Count(ranges[1..]) > 0 && k == i / Count(ranges[1..]) && j == i % Count(ranges[1..])
    ensures j < Size(Chain(segments[1..], ranges[1..], tail)) && i < Size(Chain(segments, ranges, tail))
    ensures Combination(Chain(segments, ranges, tail), i, p) ==
            Combination(Chain(segments[1..], ranges[1..], tail), j, FirstText(segments, ranges, tail, k, p))
  {
    SizeIsCount(segments, ranges, tail);
    SizeIsCount(segments[1..], ranges[1..], tail);
    ChainFirst(segments, ranges, tail);
    CombinationFirst(Chain(segments, ranges, tail), i, k, j, p);
    FirstShown(segments, ranges, tail, k);
  }

  lemma {:induction false} CombinationSpelled(segments: seq<Segment>, ranges: seq<Range>, tail: string, i: nat, p: string)
    requires |segments| == |ranges| > 0 && i < Count(ranges)
    ensures i < Size(Chain(segments, ranges, tail))
    ensures Combination(Chain(segments, ranges, tail), i, p) == p + Spelled(Literals(segments), ranges, tail, i)
    decreases |ranges|
  {
    var k, j := BothFirst(segments, ranges, tail, i, p);
    var literal, numeral := segments[0].literal, Numeral(ranges[0].start + k, ranges[0].isAlpha);
    if |ranges| == 1 {
      Regroup(p, literal, numeral, tail);
      assert Spelled(Literals(segments[1..]), ranges[1..], tail, j) == tail;
      assert Combination(Chain(segments[1..], ranges[1..], tail), j, FirstText(segments, ranges, tail, k, p)) ==
             FirstText(segments, ranges, tail, k, p);
    } else {
      CombinationSpelled(segments[1..], ranges[1..], tail, j, FirstText(segments, ranges, tail, k, p));
      Concatenate(p, literal, numeral, Spelled(Literals(segments[1..]), ranges[1..], tail, j));
    }
  }

  lemma FirstShown(segments: seq<Segment>, ranges: seq<Range>, tail: string, k: nat)
    requires |segments| == |ranges| > 0
    ensures
      var c := Chain(segments, ranges, tail)[0];
      Show(c, c.start + k) ==
      segments[0].literal + Numeral(ranges[0].start + k, ranges[0].isAlpha) + (if |segments| == 1 then tail else "")
  {
  }

  lemma ChainFirst(segments: seq<Segment>, ranges: seq<Range>, tail: string)
    requires |segments| == |ranges| > 0
    ensures Chain(segments, ranges, tail)[1..] == Chain(segments[1..], ranges[1..], tail)
    ensures Literals(segments)[1..] == Literals(segments[1..])
  {
  }

  lemma DigitsBelow(i: nat, w: int, n: nat)
    requires i < (if w > 0 then w else 0) * n
    ensures n > 0 && i % n < n
  {
  }

  lemma Regroup(p: string, literal: string, numeral: string, tail: string)
    ensures p + (literal + numeral + tail) == p + (literal + (numeral + tail))
  {
    assert literal + numeral + tail == literal + (numeral + tail);
  }

  lemma Concatenate(p: string, literal: string, numeral: string, rest: string)
    ensures (p + (literal + numeral + "")) + rest == p + (literal + (numeral + rest))
  {
  }

  /** The texts are spelled, in order. */
  ghost predicate Spells(texts: seq<string>, literals: seq<string>, ranges: seq<Range>, tail: string)
    requires |literals| == |ranges|
  {
    |texts| <= Count(ranges) && forall i :: 0 <= i < |texts| ==> texts[i] == Spelled(literals, ranges, tail, i)
  }

  lemma ProductSpells(segments: seq<Segment>, ranges: seq<Range>, tail: string)
    requires |segments| == |ranges| > 0
    ensures |Product(Chain(segments, ranges, tail), "")| == Count(ranges)
    ensures Spells(Product(Chain(segments, ranges, tail), ""), Literals(segments), ranges, tail)
  {
    var cells := Chain(segments, ranges, tail);
    SizeIsCount(segments, ranges, tail);
    ProductSize(cells, "");
    forall i | 0 <= i < Count(ranges)
      ensures Product(cells, "")[i] == Spelled(Literals(segments), ranges, tail, i)
    {
      ProductAt(cells, "", i);
      CombinationSpelled(segments, ranges, tail, i, "");
      assert "" + Spelled(Literals(segments), ranges, tail, i) == Spelled(Literals(segments), ranges, tail, i);
    }
  }

  function Written(literals: seq<string>, ranges: seq<Range>): seq<Segment>
    requires |literals| == |ranges|
  {
    seq(|ranges|, i requires 0 <= i < |ranges| => Segment(literals[i], Body(ranges[i])))
  }

  lemma {:induction false} RangesOfWritten(literals: seq<string>, ranges: seq<Range>)
    requires |literals| == |ranges|
    requires forall i :: 0 <= i < |ranges| ==> Readable(ranges[i]) && ranges[i].start <= ranges[i].end
    ensures RangesOf(Written(literals, ranges)) == Some(ranges)
  {
    if ranges != [] {
      var segments := Written(literals, ranges);
      assert segments[1..] == Written(literals[1..], ranges[1..]);
      RangesOfWritten(literals[1..], ranges[1..]);
      BodyRoundTrip(ranges[0]);
      assert ranges == [ranges[0]] + ranges[1..];
    }
  }

  /** Text and ranges written out as a pattern expand to the product of exactly these ranges with
      exactly this text around them, and spell it out in order. */
  lemma WrittenExpands(literals: seq<string>, ranges: seq<Range>, tail: string)
    requires |literals| == |ranges| > 0 && OpenEnded(tail)
    requires forall i :: 0 <= i < |ranges| ==> BraceFree(literals[i])
    requires forall i :: 0 <= i < |ranges| ==> Readable(ranges[i]) && ranges[i].start <= ranges[i].end < WORD - 1
    ensures
      var segments := Written(literals, ranges);
      Meaning(Render(segments, tail)) == Listed(Product(Chain(segments, ranges, tail), ""))
    ensures
      var meaning := Meaning(Render(Written(literals, ranges), tail));
      meaning.Listed? && |meaning.texts| == Count(ranges) && Spells(meaning.texts, literals, ranges, tail)
  {
    var segments := Written(literals, ranges);
    forall i | 0 <= i < |ranges| ensures BraceFree(segments[i].literal) && BraceFree(segments[i].body) {
      BodyRoundTrip(ranges[i]);
    }
    ReadingExactly(Render(segments, tail), segments, tail);
    RangesOfWritten(literals, ranges);
    ProductSpells(segments, ranges, tail);
    assert Literals(segments) == literals;
  }
}
