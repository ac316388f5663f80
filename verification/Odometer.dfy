/** The linked ellipsis objects of the source, proved to work as the odometer, and the methods
    that find the ellipses of an argument, link them and expand them. */
module Odometer {
  import opened Objects
  import opened Alpha
  import opened Ellipsis
  import opened Patterns

  // ---------------------------------------------------------------- linked ellipses

  class Node {
    const start: nat
    const end: nat
    const isAlpha: bool
    const startIndex: nat
    const endIndex: nat
    var current: nat
    var prefix: string
    var suffix: string
    var next: Node?

    constructor (start: nat, end: nat, isAlpha: bool, startIndex: nat, endIndex: nat)
      ensures this.start == start && this.end == end && this.isAlpha == isAlpha
      ensures this.startIndex == startIndex && this.endIndex == endIndex
      ensures current == start && prefix == "" && suffix == "" && next == null
    {
      this.start, this.end, this.isAlpha := start, end, isAlpha;
      this.startIndex, this.endIndex := startIndex, endIndex;
      current, prefix, suffix, next := start, "", "", null;
    }

    function View(): Cell
      reads this
    {
      Cell(start, end, isAlpha, prefix, suffix, current)
    }

    method Reset()
      modifies this`current
      ensures View() == Ellipsis.Reset(old(View()))
    {
      current := start;
    }

    /** get on the chain `nodes` that starts here and stands as `cells` says. */
    method Get(p: string, ghost nodes: seq<Node>, ghost cells: seq<Cell>) returns (value: string)
      requires Linked(nodes) && nodes[0] == this && Shows(nodes, cells) && Good(cells)
      modifies set n | n in nodes
      ensures value == Ellipsis.Get(cells, p).0
      ensures Linked(nodes) && Shows(nodes, Ellipsis.Get(cells, p).1)
      decreases |nodes|, if |cells| > 1 && Spent(cells[1..]) then 1 else 0
    {
      assert nodes[0].View() == cells[0] && Ranged(cells[0]);
      if current > end {
        return "";
      }
      value := Text(p);
      if next == null {
        Step();
        return;
      }
      LinkedTail(nodes, cells);
      GoodTail(cells);
      ghost var rest := Ellipsis.Get(cells[1..], value).1;
      var inner := next.Get(value, nodes[1..], cells[1..]);
      LinkedCons(nodes, cells[0], rest);
      if inner != "" {
        return inner;
      }
      AgainGood(cells, rest);
      Carry(nodes, cells[0], rest);
      value := Get(p, nodes, Again(cells[0], rest));
    }

    /** The counter goes on, round the word if need be. */
    method Step()
      requires current < WORD
      modifies this`current
      ensures View() == Advance(old(View()))
    {
      current := if current + 1 == WORD then 0 else current + 1;
    }

    /** This ellipsis' own text behind `p`. */
    method Text(p: string) returns (value: string)
      requires current < WORD
      ensures value == p + Show(View(), current)
    {
      var text: string;
      if isAlpha {
        text := Int2Alpha(current);
      } else {
        text := Decimal(current);
      }
      value := p + prefix + text + suffix;
      assert value == p + (prefix + text + suffix);
    }

    /** Reset the next ellipsis and advance this one. */
    method Carry(ghost nodes: seq<Node>, ghost c: Cell, ghost rest: seq<Cell>)
      requires Linked(nodes) && nodes[0] == this && Shows(nodes, [c] + rest) && next != null && rest != []
      requires current < WORD
      modifies this`current, next`current
      ensures Linked(nodes) && Shows(nodes, Again(c, rest))
    {
      assert nodes[0].View() == ([c] + rest)[0];
      assert nodes[1].View() == ([c] + rest)[1];
      next.Reset();
      Step();
      ghost var again := Again(c, rest);
      forall i | 0 <= i < |nodes| ensures nodes[i].View() == again[i] {
        if i > 1 {
          assert nodes[i] != this && nodes[i] != next && again[i] == ([c] + rest)[i];
        }
      }
    }

    /** expand, for at most `turns` turns of its loop: what they print, and whether the loop was left. */
    method Expand(turns: nat, ghost nodes: seq<Node>, ghost cells: seq<Cell>)
        returns (result: seq<string>, done: bool)
      requires Linked(nodes) && nodes[0] == this && Shows(nodes, cells) && Good(cells)
      modifies set n | n in nodes
      ensures result == Printed(cells, turns) && (done <==> Ends(cells, turns))
    {
      result := [];
      ghost var now, all := cells, Printed(cells, turns);
      assert [] + all == all;
      for i := 0 to turns
        invariant Linked(nodes) && Shows(nodes, now) && Good(now)
        invariant result + Printed(now, turns - i) == all
        invariant Ends(now, turns - i) <==> Ends(cells, turns)
      {
        TurnPrints(now, turns - i, result);
        var value := Get("", nodes, now);
        now := Ellipsis.Get(now, "").1;
        if value == "" {
          return result, true;
        }
        result := result + [value];
      }
      done := false;
    }
  }

  /** One turn of expand's loop, with `before` already printed. */
  lemma TurnPrints(cells: seq<Cell>, n: nat, before: seq<string>)
    requires cells != [] && Good(cells) && n > 0
    ensures
      var (value, rest) := Ellipsis.Get(cells, "");
      if value == "" then before + Printed(cells, n) == before && Ends(cells, n)
      else
        && before + Printed(cells, n) == (before + [value]) + Printed(rest, n - 1)
        && (Ends(cells, n) <==> Ends(rest, n - 1))
  {
    var (value, rest) := Ellipsis.Get(cells, "");
    PrintedTurn(cells, n);
    Shift(before, [value], Printed(rest, n - 1));
    assert before + [] == before;
  }

  lemma Shift(a: seq<string>, b: seq<string>, c: seq<string>)
    ensures (a + b) + c == a + (b + c)
  {
  }

  ghost predicate Linked(nodes: seq<Node>)
    reads set n | n in nodes
  {
    && |nodes| > 0
    && (forall i, j :: 0 <= i < j < |nodes| ==> nodes[i] != nodes[j])
    && (forall i :: 0 <= i < |nodes| - 1 ==> nodes[i].next == nodes[i + 1])
    && nodes[|nodes| - 1].next == null
  }

  /** The nodes stand as the cells say. */
  ghost predicate Shows(nodes: seq<Node>, cells: seq<Cell>)
    reads set n | n in nodes
  {
    && |nodes| == |cells|
    && forall i :: 0 <= i < |nodes| ==> nodes[i].View() == cells[i]
  }

  lemma LinkedTail(nodes: seq<Node>, cells: seq<Cell>)
    requires Linked(nodes) && Shows(nodes, cells) && nodes[0].next != null
    ensures |nodes| > 1 && Linked(nodes[1..]) && nodes[1..][0] == nodes[0].next
    ensures Shows(nodes[1..], cells[1..])
  {
  }

  lemma LinkedCons(nodes: seq<Node>, c: Cell, rest: seq<Cell>)
    requires |nodes| > 1 && Linked(nodes[1..]) && nodes[0].next == nodes[1] && nodes[0] !in nodes[1..]
    requires nodes[0].View() == c && Shows(nodes[1..], rest)
    ensures Linked(nodes) && Shows(nodes, [c] + rest)
  {
    forall i | 0 < i < |nodes| ensures nodes[i] == nodes[1..][i - 1] {}
    forall i, j | 0 <= i < j < |nodes| ensures nodes[i] != nodes[j] {
      assert nodes[j] in nodes[1..];
      if i > 0 { assert nodes[1..][i - 1] != nodes[1..][j - 1]; }
    }
    forall i | 0 <= i < |nodes| - 1 ensures nodes[i].next == nodes[i + 1] {
      if i > 0 { assert nodes[1..][i - 1].next == nodes[1..][i]; }
    }
  }

  // ---------------------------------------------------------------- finding the ellipses

  /** Where the text in front of ellipsis `k` starts. */
  function From(nodes: seq<Node>, k: nat): nat
    requires k <= |nodes|
  {
    if k == 0 then 0 else nodes[k - 1].endIndex
  }

  /** A node for a range in the braces from `open` to `end`. */
  ghost predicate MadeFor(n: Node, r: Range, open: nat, end: nat) {
    n.start == r.start && n.end == r.end && n.isAlpha == r.isAlpha && n.startIndex == open && n.endIndex == end
  }

  /** A node as it is made: at its start, without text, and not linked. */
  ghost predicate Loose(n: Node)
    reads n
  {
    n.current == n.start && n.prefix == "" && n.suffix == "" && n.next == null
  }

  /** parseValue: digits, which the library reads, or else letters. */
  method ReadValue(value: string) returns (r: Option<(nat, bool)>)
    ensures r == ParseValue(value)
  {
    if IsDecimal(value) && DecimalValue(value) < WORD {
      return Some((DecimalValue(value), false));
    }
    if value != "" && IsAlpha(value) {
      var ui64 := Alpha2Int(value);
      return Some((ui64, true));
    }
    return None;
  }

  /** parseEllipsis on the braces at `start` to `end`, with `body` between them. */
  method ParseEllipsis(arg: string, start: nat, end: nat, ghost body: string) returns (e: Option<Node>)
    requires start + 2 <= end <= |arg| && arg[start + 1..end - 1] == body
    ensures e.Some? <==> ParseBody(body).Some?
    ensures e.Some? ==> fresh(e.value) && Loose(e.value) && MadeFor(e.value, ParseBody(body).value, start, end)
  {
    var tokens := Tokens(arg[start + 1..end - 1]);
    if tokens.None? {
      return None;
    }
    var startValue := ReadValue(tokens.value.0);
    var endValue := ReadValue(tokens.value.1);
    if startValue.None? || endValue.None? || startValue.value.1 != endValue.value.1 {
      return None;
    }
    var low, high := startValue.value.0, endValue.value.0;
    if low > high {
      low, high := high, low;
    }
    var n := new Node(low, high, startValue.value.1, start, end);
    e := Some(n);
  }

  /** One node for every segment, in place. */
  ghost predicate Made(arg: string, nodes: seq<Node>, segments: seq<Segment>) {
    && |nodes| == |segments|
    && (forall i, j :: 0 <= i < j < |nodes| ==> nodes[i] != nodes[j])
    && (forall k :: 0 <= k < |nodes| ==> InPlace(arg, nodes, segments, k))
  }

  ghost predicate InPlace(arg: string, nodes: seq<Node>, segments: seq<Segment>, k: nat)
    requires k < |nodes| == |segments|
  {
    MadeAt(arg, nodes[k], segments[k], From(nodes, k))
  }

  ghost predicate MadeAt(arg: string, n: Node, s: Segment, from: nat) {
    var open := from + |s.literal|;
    && ParseBody(s.body).Some?
    && MadeFor(n, ParseBody(s.body).value, open, open + |s.body| + 2)
    && n.endIndex <= |arg| && arg[from..open] == s.literal
  }

  lemma MadeMore(arg: string, nodes: seq<Node>, segments: seq<Segment>, n: Node, s: Segment)
    requires Made(arg, nodes, segments) && n !in nodes && MadeAt(arg, n, s, From(nodes, |nodes|))
    ensures Made(arg, nodes + [n], segments + [s])
  {
    var all, every := nodes + [n], segments + [s];
    forall k | 0 <= k <= |nodes| ensures InPlace(arg, all, every, k) {
      assert From(all, k) == From(nodes, k);
      if k < |nodes| {
        assert InPlace(arg, nodes, segments, k);
      }
    }
  }

  /** Once a body fails to parse, or a brace is misplaced, the argument is rejected. */
  lemma RejectedBy(arg: string, done: seq<Segment>, bad: Segment, rest: Option<Cut>)
    requires Reading(arg) == Prepend(done, Prepend([bad], rest)) && ParseBody(bad.body).None?
    ensures Meaning(arg) == Rejected
  {
    if rest.Some? {
      var segments := Reading(arg).value.segments;
      RangesOfEach(segments);
      assert segments[|done|] == bad;
    }
  }

  /** The scan stands at `i`, with text pending since `from`, where the finished segments end. */
  ghost predicate Scanning(arg: string, from: nat, i: nat, done: seq<Segment>, literal: string, body: Option<string>) {
    && i <= |arg| && from + |Pending(literal, body)| == i
    && arg[from..i] == Pending(literal, body)
    && Reading(arg) == Prepend(done, Scan(arg[i..], literal, body))
  }

  lemma OneFurther(arg: string, from: nat, i: nat)
    requires from <= i < |arg|
    ensures arg[from..i + 1] == arg[from..i] + [arg[i]]
    ensures arg[i..] != "" && arg[i..][0] == arg[i] && arg[i..][1..] == arg[i + 1..]
  {
  }

  lemma ScanningStart(arg: string)
    ensures Scanning(arg, 0, 0, [], "", None)
  {
    assert arg[0..] == arg;
    if Reading(arg).Some? {
      assert [] + Reading(arg).value.segments == Reading(arg).value.segments;
    }
  }

  lemma ScanningEnd(arg: string, from: nat, done: seq<Segment>, literal: string, body: Option<string>)
    requires Scanning(arg, from, |arg|, done, literal, body)
    ensures Reading(arg) == Some(Segments(done, arg[from..]))
  {
    assert arg[|arg|..] == "" && done + [] == done;
    assert arg[from..|arg|] == arg[from..];
  }

  lemma ScanningOn(arg: string, from: nat, i: nat, done: seq<Segment>, literal: string, body: Option<string>)
    requires Scanning(arg, from, i, done, literal, body) && i < |arg| && arg[i] != '}'
    requires arg[i] == '{' ==> body.None?
    ensures
      if arg[i] == '{' then Scanning(arg, from, i + 1, done, literal, Some(""))
      else if body.Some? then Scanning(arg, from, i + 1, done, literal, Some(body.value + [arg[i]]))
      else Scanning(arg, from, i + 1, done, literal + [arg[i]], None)
  {
    OneFurther(arg, from, i);
    if body.Some? {
      Reassociate("{", body.value, [arg[i]]);
      Reassociate(literal, "{" + body.value, [arg[i]]);
    } else {
      assert "{" + "" == "{";
    }
  }

  lemma ScanningStuck(arg: string, from: nat, i: nat, done: seq<Segment>, literal: string, body: Option<string>)
    requires Scanning(arg, from, i, done, literal, body) && i < |arg|
    requires if arg[i] == '{' then body.Some? else arg[i] == '}' && body.None?
    ensures Meaning(arg) == Rejected
  {
    OneFurther(arg, from, i);
  }

  lemma ScanningClose(arg: string, from: nat, i: nat, done: seq<Segment>, literal: string, body: string)
    requires Scanning(arg, from, i, done, literal, Some(body)) && i < |arg| && arg[i] == '}'
    ensures
      var s := Segment(literal, body);
      var open := from + |literal|;
      && open + 1 <= i && arg[from..open] == literal && arg[open + 1..i] == body
      && open + |body| + 2 == i + 1
      && Reading(arg) == Prepend(done, Prepend([s], Scan(arg[i + 1..], "", None)))
      && Scanning(arg, i + 1, i + 1, done + [s], "", None)
  {
    var s := Segment(literal, body);
    var open := from + |literal|;
    var pending := literal + ("{" + body);
    assert pending[..|literal|] == literal && pending[|literal| + 1..] == body;
    assert arg[from..i][..|literal|] == arg[from..open];
    assert arg[from..i][|literal| + 1..] == arg[open + 1..i];
    OneFurther(arg, from, i);
    PrependTwice(done, s, Scan(arg[i + 1..], "", None));
  }

  lemma PrependTwice(done: seq<Segment>, s: Segment, rest: Option<Cut>)
    ensures Prepend(done, Prepend([s], rest)) == Prepend(done + [s], rest)
  {
    if rest.Some? {
      assert done + ([s] + rest.value.segments) == (done + [s]) + rest.value.segments;
    }
  }

  /** The node made for the segment that ends at `i` is in its place. */
  lemma MadeHere(arg: string, n: Node, s: Segment, from: nat, i: nat)
    requires from + |s.literal| + |s.body| + 2 == i + 1 <= |arg|
    requires arg[from..from + |s.literal|] == s.literal
    requires ParseBody(s.body).Some? && MadeFor(n, ParseBody(s.body).value, from + |s.literal|, i + 1)
    ensures MadeAt(arg, n, s, from)
  {
  }

  /** The node for the segment whose braces are at `start` and `i`. */
  method MakeEllipsis(arg: string, start: nat, i: nat, nodes: seq<Node>,
                      ghost done: seq<Segment>, ghost s: Segment)
    returns (e: Option<Node>)
    requires i < |arg| && From(nodes, |nodes|) + |s.literal| == start && start + |s.body| + 1 == i
    requires arg[From(nodes, |nodes|)..start] == s.literal && arg[start + 1..i] == s.body
    requires Made(arg, nodes, done)
    ensures e.None? <==> ParseBody(s.body).None?
    ensures e.Some? ==> fresh(e.value) && Loose(e.value) && e.value.endIndex == i + 1
    ensures e.Some? ==> Made(arg, nodes + [e.value], done + [s])
  {
    e := ParseEllipsis(arg, start, i + 1, s.body);
    if e.Some? {
      MadeHere(arg, e.value, s, From(nodes, |nodes|), i);
      MadeMore(arg, nodes, done, e.value, s);
    }
  }

  /** The closing brace at `i`. */
  method CloseEllipsis(arg: string, start: nat, i: nat, nodes: seq<Node>,
                       ghost done: seq<Segment>, ghost literal: string, ghost body: string)
    returns (e: Option<Node>)
    requires Scanning(arg, From(nodes, |nodes|), i, done, literal, Some(body)) && i < |arg| && arg[i] == '}'
    requires Made(arg, nodes, done) && start == From(nodes, |nodes|) + |literal|
    ensures e.None? ==> Meaning(arg) == Rejected
    ensures e.Some? ==>
      && fresh(e.value) && Loose(e.value) && e.value.endIndex == i + 1
      && Made(arg, nodes + [e.value], done + [Segment(literal, body)])
      && Scanning(arg, i + 1, i + 1, done + [Segment(literal, body)], "", None)
  {
    ghost var s := Segment(literal, body);
    ScanningClose(arg, From(nodes, |nodes|), i, done, literal, body);
    e := MakeEllipsis(arg, start, i, nodes, done, s);
    if e.None? {
      RejectedBy(arg, done, s, Scan(arg[i + 1..], "", None));
    }
  }

  /** getEllipses: the nodes of every segment in order, or nothing when the argument is rejected. */
  method GetEllipses(arg: string) returns (ellipses: Option<seq<Node>>)
    ensures ellipses.None? ==> Meaning(arg) == Rejected
    ensures ellipses.Some? ==> fresh(ellipses.value) && Reading(arg).Some?
    ensures ellipses.Some? ==> forall n :: n in ellipses.value ==> Loose(n)
    ensures ellipses.Some? ==>
      var cut := Reading(arg).value;
      && Made(arg, ellipses.value, cut.segments) && From(ellipses.value, |ellipses.value|) <= |arg|
      && arg[From(ellipses.value, |ellipses.value|)..] == cut.tail
  {
    var curlyOpened, start, i := false, 0, 0;
    var nodes: seq<Node> := [];
    ghost var done: seq<Segment>, literal, body: Option<string> := [], "", None;
    ScanningStart(arg);
    while i < |arg|
      invariant Scanning(arg, From(nodes, |nodes|), i, done, literal, body) && Made(arg, nodes, done)
      invariant fresh(nodes) && forall n :: n in nodes ==> Loose(n)
      invariant curlyOpened == body.Some? && (curlyOpened ==> start == From(nodes, |nodes|) + |literal|)
    {
      if arg[i] == '{' {
        if curlyOpened {
          ScanningStuck(arg, From(nodes, |nodes|), i, done, literal, body);
          return None;
        }
        ScanningOn(arg, From(nodes, |nodes|), i, done, literal, body);
        curlyOpened, start := true, i;
        body := Some("");
      } else if arg[i] == '}' {
        if !curlyOpened {
          ScanningStuck(arg, From(nodes, |nodes|), i, done, literal, body);
          return None;
        }
        curlyOpened := false;
        var e := CloseEllipsis(arg, start, i, nodes, done, literal, body.value);
        if e.None? {
          return None;
        }
        nodes := nodes + [e.value];
        done, literal, body := done + [Segment(literal, body.value)], "", None;
      } else {
        ScanningOn(arg, From(nodes, |nodes|), i, done, literal, body);
        if body.Some? {
          body := Some(body.value + [arg[i]]);
        } else {
          literal := literal + [arg[i]];
        }
      }
      i := i + 1;
    }
    ScanningEnd(arg, From(nodes, |nodes|), done, literal, body);
    return Some(nodes);
  }

  // ---------------------------------------------------------------- Expand

  /** The first `k` ellipses carry their text and are linked up to the `k`-th. */
  ghost predicate LinkedUpTo(nodes: seq<Node>, segments: seq<Segment>, k: nat)
    requires |nodes| == |segments| && k <= |nodes|
    reads set n | n in nodes
  {
    && (forall i :: 0 <= i < |nodes| ==>
          nodes[i].current == nodes[i].start && nodes[i].suffix == "")
    && (forall i :: 0 <= i < k ==> nodes[i].prefix == segments[i].literal)
    && (forall i :: 0 <= i < k - 1 ==> nodes[i].next == nodes[i + 1])
    && (forall i :: 0 <= i < |nodes| && i >= k - 1 ==> nodes[i].next == null)
  }

  /** Hand every ellipsis its text and link it to the next. */
  method Link(arg: string, nodes: seq<Node>, ghost segments: seq<Segment>, ghost tail: string)
    requires nodes != [] && Made(arg, nodes, segments) && From(nodes, |nodes|) <= |arg|
    requires arg[From(nodes, |nodes|)..] == tail && forall n :: n in nodes ==> Loose(n)
    modifies set n | n in nodes
    ensures Linked(nodes) && nodes[|nodes| - 1].suffix == tail
    ensures forall i :: 0 <= i < |nodes| ==>
      nodes[i].prefix == segments[i].literal && nodes[i].current == nodes[i].start
    ensures forall i :: 0 <= i < |nodes| - 1 ==> nodes[i].suffix == ""
  {
    var startIndex, k := 0, 0;
    assert forall i :: 0 <= i < |nodes| ==> Loose(nodes[i]);
    while k < |nodes|
      invariant 0 <= k <= |nodes| && startIndex == From(nodes, k)
      invariant LinkedUpTo(nodes, segments, k)
    {
      TextBefore(arg, nodes, segments, k);
      LinkOne(arg, nodes, segments, startIndex, k);
      startIndex := nodes[k].endIndex;
      k := k + 1;
    }
    nodes[|nodes| - 1].suffix := arg[startIndex..];
  }

  /** The text before an ellipsis is its segment's literal. */
  lemma TextBefore(arg: string, nodes: seq<Node>, segments: seq<Segment>, k: nat)
    requires Made(arg, nodes, segments) && k < |nodes|
    ensures From(nodes, k) <= nodes[k].startIndex <= |arg|
    ensures arg[From(nodes, k)..nodes[k].startIndex] == segments[k].literal
  {
    assert InPlace(arg, nodes, segments, k);
  }

  method LinkOne(arg: string, nodes: seq<Node>, ghost segments: seq<Segment>, startIndex: nat, k: nat)
    requires |nodes| == |segments| && k < |nodes| && LinkedUpTo(nodes, segments, k)
    requires forall i, j :: 0 <= i < j < |nodes| ==> nodes[i] != nodes[j]
    requires startIndex <= nodes[k].startIndex <= |arg|
    requires arg[startIndex..nodes[k].startIndex] == segments[k].literal
    modifies set n | n in nodes
    ensures LinkedUpTo(nodes, segments, k + 1)
  {
    nodes[k].prefix := arg[startIndex..nodes[k].startIndex];
    if k > 0 {
      nodes[k - 1].next := nodes[k];
    }
  }

  /** How far Expand got: an error, its result, or still in the loop. */
  datatype Outcome = Refused | Done(texts: seq<string>) | Running(texts: seq<string>)

  /** Given `turns` turns of its loop, Expand does what the argument means: it refuses, or prints the
      texts in order and is done once there are more turns than texts, or prints a text every turn. */
  ghost predicate Follows(r: Outcome, meaning: Expansion, turns: nat) {
    match meaning
    case Rejected => r == Refused
    case Listed(texts) => r == Done(texts) || (turns <= |texts| && r == Running(texts[..turns]))
    case Endless => r.Running? && |r.texts| == turns && "" !in r.texts
  }

  /** What is printed for literals, finite ranges and a tail is spelled out of them, in order, and all of it
      when the loop is done. */
  ghost predicate SpelledOut(r: Outcome, arg: string) {
    Reading(arg).Some? && Reading(arg).value.segments != [] && RangesOf(Reading(arg).value.segments).Some? ==>
      var Segments(segments, tail) := Reading(arg).value;
      var ranges := RangesOf(segments).value;
      !AnyEndless(ranges) ==>
        && r != Refused && |ranges| == |segments|
        && Spells(r.texts, Literals(segments), ranges, tail)
        && (r.Done? ==> |r.texts| == Count(ranges))
  }

  lemma FollowsSpelled(r: Outcome, arg: string, turns: nat)
    requires Follows(r, Meaning(arg), turns)
    ensures SpelledOut(r, arg)
  {
    var cut := Reading(arg);
    if cut.Some? && cut.value.segments != [] && RangesOf(cut.value.segments).Some? {
      RangesOfEach(cut.value.segments);
      ProductSpells(cut.value.segments, RangesOf(cut.value.segments).value, cut.value.tail);
    }
  }

  method Expand(arg: string, turns: nat) returns (r: Outcome)
    ensures Follows(r, Meaning(arg), turns)
    ensures SpelledOut(r, arg)
  {
    forall r' | Follows(r', Meaning(arg), turns) ensures SpelledOut(r', arg) {
      FollowsSpelled(r', arg, turns);
    }
    var found := GetEllipses(arg);
    if found.None? {
      return Refused;
    }
    var nodes := found.value;
    ghost var cut := Reading(arg).value;
    RangesMade(arg, nodes, cut.segments);
    if nodes == [] {
      return Done([arg]);
    }
    Link(arg, nodes, cut.segments, cut.tail);
    ghost var ranges := RangesOf(cut.segments).value;
    ChainShown(nodes, cut.segments, ranges, cut.tail);
    ChainFollows(arg, turns);
    var texts, done := nodes[0].Expand(turns, nodes, Chain(cut.segments, ranges, cut.tail));
    r := if done then Done(texts) else Running(texts);
  }

  /** Linked nodes stand as their segments, ranges and tail say. */
  lemma ChainShown(nodes: seq<Node>, segments: seq<Segment>, ranges: seq<Range>, tail: string)
    requires |nodes| == |segments| == |ranges| > 0 && nodes[|nodes| - 1].suffix == tail
    requires forall i :: 0 <= i < |nodes| ==>
      nodes[i].prefix == segments[i].literal && nodes[i].current == nodes[i].start
    requires forall i :: 0 <= i < |nodes| - 1 ==> nodes[i].suffix == ""
    requires forall i :: 0 <= i < |nodes| ==>
      ranges[i].start == nodes[i].start && ranges[i].end == nodes[i].end && ranges[i].isAlpha == nodes[i].isAlpha
    ensures Shows(nodes, Chain(segments, ranges, tail))
  {
  }

  /** The chain of an argument prints what the argument means. */
  lemma ChainFollows(arg: string, turns: nat)
    requires Reading(arg).Some? && Reading(arg).value.segments != []
    requires
      var segments := Reading(arg).value.segments;
      RangesOf(segments).Some? && |RangesOf(segments).value| == |segments|
    ensures
      var cut := Reading(arg).value;
      var cells := Chain(cut.segments, RangesOf(cut.segments).value, cut.tail);
      && Good(cells)
      && Follows(if Ends(cells, turns) then Done(Printed(cells, turns)) else Running(Printed(cells, turns)),
                 Meaning(arg), turns)
  {
    var cut := Reading(arg).value;
    var ranges := RangesOf(cut.segments).value;
    RangesOfEach(cut.segments);
    ChainInOrder(cut.segments, ranges, cut.tail);
    ChainPrints(Chain(cut.segments, ranges, cut.tail), turns);
  }

  lemma ChainInOrder(segments: seq<Segment>, ranges: seq<Range>, tail: string)
    requires Matches(segments, ranges)
    ensures
      var cells := Chain(segments, ranges, tail);
      Fresh(cells) && AllRanged(cells) && (Finite(cells) <==> !AnyEndless(ranges))
  {
    var cells := Chain(segments, ranges, tail);
    forall i | 0 <= i < |cells| ensures Ranged(cells[i]) && cells[i].current == cells[i].start {
      assert ParseBody(segments[i].body) == Some(ranges[i]);
    }
    forall i | 0 <= i < |cells| ensures IsEndless(cells[i]) <==> ranges[i].end == WORD - 1 {}
  }

  lemma ChainPrints(cells: seq<Cell>, turns: nat)
    requires cells != [] && Fresh(cells) && AllRanged(cells)
    ensures Good(cells)
    ensures
      Follows(if Ends(cells, turns) then Done(Printed(cells, turns)) else Running(Printed(cells, turns)),
              if Finite(cells) then Listed(Product(cells, "")) else Endless, turns)
  {
    FreshGood(cells);
    if Finite(cells) {
      FinitePrints(cells, turns);
      FreshRemaining(cells, "");
    } else {
      EndlessUnending(cells);
      UnendingPrints(cells, turns);
    }
  }

  lemma RangesMade(arg: string, nodes: seq<Node>, segments: seq<Segment>)
    requires Made(arg, nodes, segments)
    ensures RangesOf(segments).Some? && |RangesOf(segments).value| == |nodes|
    ensures forall i :: 0 <= i < |nodes| ==>
      var r := RangesOf(segments).value[i];
      r.start == nodes[i].start <= r.end == nodes[i].end < WORD && r.isAlpha == nodes[i].isAlpha
  {
    forall i | 0 <= i < |segments| ensures ParseBody(segments[i].body).Some? {
      assert InPlace(arg, nodes, segments, i);
    }
    RangesOfEach(segments);
    forall i | 0 <= i < |nodes|
      ensures
        var r := RangesOf(segments).value[i];
        r.start == nodes[i].start <= r.end == nodes[i].end < WORD && r.isAlpha == nodes[i].isAlpha
    {
      assert InPlace(arg, nodes, segments, i);
    }
  }
}
