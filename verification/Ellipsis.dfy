/** Ellipsis expansion: a chain of ranges with literal text around them works as an odometer and
    prints the Cartesian product, last range fastest. */
module Ellipsis {
  import opened Objects
  import opened Alpha

  // ---------------------------------------------------------------- one ellipsis

  /** The ellipsis as a value: its range, its text, and where its counter stands. */
  datatype Cell = Cell(start: nat, end: nat, isAlpha: bool, prefix: string, suffix: string, current: nat)

  /** FormatUint in base ten. */
  function Decimal(n: nat): (s: string)
    ensures s != ""
  {
    if n < 10 then [(n + 48) as char] else Decimal(n / 10) + [(n % 10 + 48) as char]
  }

  function Show(c: Cell, k: nat): (s: string)
    ensures s != ""
  {
    c.prefix + (if c.isAlpha then AlphaText(k) else Decimal(k)) + c.suffix
  }

  /** A 64-bit counter's next value. */
  function Incremented(x: nat): nat {
    (x + 1) % WORD
  }

  /** A range whose end is the largest word: its counter never gets past the end. */
  predicate IsEndless(c: Cell) {
    c.end == WORD - 1
  }

  /** A range of the word with its counter; one that ends stays between the start and one past the
      end, one that does not goes round the whole word. */
  predicate Ranged(c: Cell) {
    && c.start <= c.end < WORD && c.current < WORD
    && (!IsEndless(c) ==> c.start <= c.current <= c.end + 1)
  }

  ghost predicate AllRanged(cs: seq<Cell>) {
    forall i :: 0 <= i < |cs| ==> Ranged(cs[i])
  }

  ghost predicate Finite(cs: seq<Cell>) {
    forall i :: 0 <= i < |cs| ==> !IsEndless(cs[i])
  }

  // ---------------------------------------------------------------- the product

  /** Everything the chain prints behind `p` when all counters start afresh, by the ranges alone. */
  function Product(cs: seq<Cell>, p: string): seq<string>
    decreases |cs|, 0, 0
  {
    if cs == [] then [p] else ProductFrom(cs, cs[0].start, p)
  }

  /** The same with the first counter starting at `k`. */
  function ProductFrom(cs: seq<Cell>, k: nat, p: string): seq<string>
    requires cs != []
    decreases |cs| - 1, 1, cs[0].end + 1 - k
  {
    if k > cs[0].end then []
    else Product(cs[1..], p + Show(cs[0], k)) + ProductFrom(cs, k + 1, p)
  }

  function Width(c: Cell): nat {
    if c.start <= c.end then c.end - c.start + 1 else 0
  }

  function Size(cs: seq<Cell>): nat {
    if cs == [] then 1 else Width(cs[0]) * Size(cs[1..])
  }

  /** The `i`-th combination, read off as digits of `i` in the mixed radix of the widths. */
  function Combination(cs: seq<Cell>, i: nat, p: string): string
    requires i < Size(cs)
  {
    if cs == [] then p
    else
      var n := Size(cs[1..]);
      Combination(cs[1..], i % n, p + Show(cs[0], cs[0].start + i / n))
  }

  lemma {:induction false} ProductSize(cs: seq<Cell>, p: string)
    ensures |Product(cs, p)| == Size(cs)
    decreases |cs|, 0, 0
  {
    if cs != [] {
      ProductFromSize(cs, cs[0].start, p);
    }
  }

  lemma {:induction false} ProductFromSize(cs: seq<Cell>, k: nat, p: string)
    requires cs != []
    ensures |ProductFrom(cs, k, p)| == (if k <= cs[0].end then cs[0].end - k + 1 else 0) * Size(cs[1..])
    decreases |cs| - 1, 1, cs[0].end + 1 - k
  {
    if k <= cs[0].end {
      ProductSize(cs[1..], p + Show(cs[0], k));
      ProductFromSize(cs, k + 1, p);
      assert (cs[0].end - k + 1) * Size(cs[1..]) == Size(cs[1..]) + (cs[0].end - k) * Size(cs[1..]);
    }
  }

  /** The product lists the combinations in odometer order. */
  lemma {:induction false} ProductAt(cs: seq<Cell>, p: string, i: nat)
    requires i < Size(cs)
    ensures |Product(cs, p)| == Size(cs) && Product(cs, p)[i] == Combination(cs, i, p)
    decreases |cs|, 0, 0
  {
    ProductSize(cs, p);
    if cs != [] {
      ProductFromAt(cs, cs[0].start, p, i);
    }
  }

  lemma {:induction false} ProductFromAt(cs: seq<Cell>, k: nat, p: string, i: nat)
    requires cs != [] && i < |ProductFrom(cs, k, p)|
    ensures
      var n := Size(cs[1..]);
      && n > 0 && i % n < n
      && ProductFrom(cs, k, p)[i] == Combination(cs[1..], i % n, p + Show(cs[0], k + i / n))
    decreases |cs| - 1, 1, cs[0].end + 1 - k
  {
    var n := Size(cs[1..]);
    var first := Product(cs[1..], p + Show(cs[0], k));
    ProductSize(cs[1..], p + Show(cs[0], k));
    if i < n {
      ProductAt(cs[1..], p + Show(cs[0], k), i);
      SmallDivMod(i, n);
    } else {
      ProductFromAt(cs, k + 1, p, i - n);
      ShiftedDivMod(i, n);
    }
  }

  lemma SmallDivMod(i: nat, n: nat)
    requires i < n
    ensures i / n == 0 && i % n == i
  {
  }

  lemma ShiftedDivMod(i: nat, n: nat)
    requires 0 < n <= i
    ensures i % n == (i - n) % n && i / n == (i - n) / n + 1
  {
    UniqueDigits(n, i / n, i % n, (i - n) / n + 1, (i - n) % n);
  }

  lemma UniqueDigits(n: nat, q: nat, r: nat, q': nat, r': nat)
    requires r < n && r' < n && q * n + r == q' * n + r'
    ensures q == q' && r == r'
  {
    if q < q' { LargerProduct(q, q', n); }
    if q' < q { LargerProduct(q', q, n); }
  }

  lemma {:induction false} LargerProduct(a: nat, b: nat, n: nat)
    requires a < b
    ensures a * n + n <= b * n
  {
    assert b * n == (b - 1) * n + n;
    if a < b - 1 {
      LargerProduct(a, b - 1, n);
    }
  }

  // ---------------------------------------------------------------- the odometer

  function Reset(c: Cell): Cell {
    c.(current := c.start)
  }

  /** The ranges and texts of two chains are the same. */
  ghost predicate SameRanges(a: seq<Cell>, b: seq<Cell>) {
    && |a| == |b|
    && forall i :: 0 <= i < |a| ==> a[i].(current := 0) == b[i].(current := 0)
  }

  lemma {:induction false} ProductSame(a: seq<Cell>, b: seq<Cell>, p: string)
    requires SameRanges(a, b)
    ensures Product(a, p) == Product(b, p)
    decreases |a|, 0, 0
  {
    if a != [] {
      assert a[0].(current := 0) == b[0].(current := 0);
      ProductFromSame(a, b, a[0].start, p);
    }
  }

  lemma {:induction false} ProductFromSame(a: seq<Cell>, b: seq<Cell>, k: nat, p: string)
    requires SameRanges(a, b) && a != []
    ensures ProductFrom(a, k, p) == ProductFrom(b, k, p)
    decreases |a| - 1, 1, a[0].end + 1 - k
  {
    assert a[0].(current := 0) == b[0].(current := 0);
    if k <= a[0].end {
      assert Show(a[0], k) == Show(b[0], k);
      assert SameRanges(a[1..], b[1..]) by {
        forall i | 0 <= i < |a| - 1 ensures a[1..][i].(current := 0) == b[1..][i].(current := 0) {
          assert a[i + 1].(current := 0) == b[i + 1].(current := 0);
        }
      }
      ProductSame(a[1..], b[1..], p + Show(a[0], k));
      ProductFromSame(a, b, k + 1, p);
    }
  }

  /** What the odometer has yet to print behind `p`. */
  function Remaining(cs: seq<Cell>, p: string): seq<string> {
    if cs == [] then [p]
    else if cs[0].current > cs[0].end then []
    else Remaining(cs[1..], p + Show(cs[0], cs[0].current)) + ProductFrom(cs, cs[0].current + 1, p)
  }

  ghost predicate Fresh(cs: seq<Cell>) {
    forall i :: 0 <= i < |cs| ==> cs[i].current == cs[i].start
  }

  /** Behind an exhausted counter everything is reset. */
  ghost predicate Wound(cs: seq<Cell>) {
    cs == [] || ((cs[0].current > cs[0].end ==> Fresh(cs[1..])) && Wound(cs[1..]))
  }

  lemma {:induction false} FreshRemaining(cs: seq<Cell>, p: string)
    requires Fresh(cs) && AllRanged(cs)
    ensures Remaining(cs, p) == Product(cs, p)
  {
    if cs != [] {
      assert cs[0].current == cs[0].start && Ranged(cs[0]);
      assert Fresh(cs[1..]) && AllRanged(cs[1..]);
      FreshRemaining(cs[1..], p + Show(cs[0], cs[0].current));
    }
  }

  /** Chains a `get` leaves behind: same ranges, counters in range, wound up. */
  ghost predicate Good(cs: seq<Cell>) {
    AllRanged(cs) && Wound(cs)
  }

  lemma GoodTail(cs: seq<Cell>)
    requires cs != [] && Good(cs)
    ensures Good(cs[1..])
  {
  }

  lemma GoodCons(c: Cell, rest: seq<Cell>)
    requires Good(rest) && Ranged(c) && (c.current > c.end ==> Fresh(rest))
    ensures Good([c] + rest)
  {
    assert ([c] + rest)[1..] == rest;
  }

  lemma {:induction false} FreshGood(cs: seq<Cell>)
    requires Fresh(cs) && AllRanged(cs)
    ensures Good(cs)
  {
    if cs != [] {
      FreshGood(cs[1..]);
    }
  }

  lemma SameRangesCons(c: Cell, c': Cell, a: seq<Cell>, b: seq<Cell>)
    requires SameRanges(a, b) && c.(current := 0) == c'.(current := 0)
    ensures SameRanges([c] + a, [c'] + b)
  {
  }

  // ---------------------------------------------------------------- get

  /** Nothing is left to print: the first counter is past its end, or at its end with nothing left
      behind it. */
  ghost predicate Spent(cs: seq<Cell>) {
    && cs != []
    && (|| cs[0].current > cs[0].end
        || (|cs| > 1 && cs[0].current == cs[0].end && !IsEndless(cs[0]) && Spent(cs[1..])))
  }

  lemma {:induction false} FreshNotSpent(cs: seq<Cell>)
    requires Fresh(cs) && AllRanged(cs)
    ensures !Spent(cs)
  {
    if |cs| > 1 {
      FreshNotSpent(cs[1..]);
    }
    if cs != [] {
      assert Ranged(cs[0]) && cs[0].current == cs[0].start;
    }
  }

  function Advance(c: Cell): Cell {
    c.(current := Incremented(c.current))
  }

  lemma AdvanceRanged(c: Cell)
    requires Ranged(c) && c.current <= c.end
    ensures Ranged(Advance(c))
    ensures Advance(c).current > c.end <==> c.current == c.end && !IsEndless(c)
    ensures !IsEndless(c) ==> Advance(c).current == c.current + 1
  {
    if c.current + 1 < WORD {
      assert Incremented(c.current) == c.current + 1;
    }
  }

  /** The next attempt after the ellipses behind had nothing left. */
  function Again(c: Cell, rest: seq<Cell>): seq<Cell>
    requires rest != []
  {
    [Advance(c)] + ([Reset(rest[0])] + rest[1..])
  }

  /** What a call leaves: the same ranges, in good order, and the first counter past its end if there
      was nothing to print. */
  ghost predicate Leaves(cs: seq<Cell>, r: (string, seq<Cell>)) {
    && SameRanges(cs, r.1) && Good(r.1) && r.1 != []
    && (r.0 == "" <==> Spent(cs))
    && (r.0 == "" ==> r.1[0].current > r.1[0].end)
  }

  /** get, on a chain of cells: the next text, or "" when there is none, and the moved counters. */
  function Get(cs: seq<Cell>, p: string): (r: (string, seq<Cell>))
    requires cs != [] && Good(cs)
    ensures Leaves(cs, r)
    decreases |cs|, if |cs| > 1 && Spent(cs[1..]) then 1 else 0
  {
    var c := cs[0];
    if c.current > c.end then ("", cs)
    else
      var value := p + Show(c, c.current);
      if |cs| == 1 then
        LastLeaves(cs);
        (value, [Advance(c)])
      else
        GoodTail(cs);
        var (inner, rest) := Get(cs[1..], value);
        if inner != "" then
          InnerLeaves(cs, rest);
          (inner, [c] + rest)
        else
          AgainGood(cs, rest);
          Get(Again(c, rest), p)
  }

  lemma LastLeaves(cs: seq<Cell>)
    requires |cs| == 1 && Good(cs) && cs[0].current <= cs[0].end
    ensures !Spent(cs) && SameRanges(cs, [Advance(cs[0])]) && Good([Advance(cs[0])])
  {
    AdvanceRanged(cs[0]);
    assert [Advance(cs[0])][1..] == [];
  }

  lemma InnerLeaves(cs: seq<Cell>, rest: seq<Cell>)
    requires |cs| > 1 && Good(cs) && cs[0].current <= cs[0].end
    requires SameRanges(cs[1..], rest) && Good(rest) && !Spent(cs[1..])
    ensures !Spent(cs) && SameRanges(cs, [cs[0]] + rest) && Good([cs[0]] + rest)
  {
    GoodCons(cs[0], rest);
    assert cs == [cs[0]] + cs[1..];
    SameRangesCons(cs[0], cs[0], cs[1..], rest);
  }

  lemma AgainGood(cs: seq<Cell>, rest: seq<Cell>)
    requires |cs| > 1 && Good(cs) && cs[0].current <= cs[0].end
    requires SameRanges(cs[1..], rest) && Good(rest) && rest[0].current > rest[0].end && Spent(cs[1..])
    ensures Good(Again(cs[0], rest)) && SameRanges(cs, Again(cs[0], rest))
    ensures Spent(Again(cs[0], rest)) <==> Spent(cs)
    ensures !Spent(Again(cs[0], rest)[1..])
  {
    var c, again := cs[0], Again(cs[0], rest);
    var reset := [Reset(rest[0])] + rest[1..];
    ResetFresh(rest);
    FreshGood(reset);
    FreshNotSpent(reset);
    AdvanceRanged(c);
    GoodCons(Advance(c), reset);
    assert cs == [c] + cs[1..] && again[1..] == reset;
    SameRangesTrans(cs[1..], rest, reset);
    SameRangesCons(c, Advance(c), cs[1..], reset);
  }

  // ---------------------------------------------------------------- finite ranges

  /** One call prints the first of what remains and leaves the rest; when nothing remains it
      answers "" and leaves the first counter exhausted and everything behind it reset. */
  ghost predicate GetAnswers(cs: seq<Cell>, p: string, r: (string, seq<Cell>)) {
    && SameRanges(cs, r.1) && Good(r.1)
    && (if Remaining(cs, p) == [] then r.0 == "" && r.1 != [] && r.1[0].current > r.1[0].end
        else r.0 == Remaining(cs, p)[0] != "" && Remaining(r.1, p) == Remaining(cs, p)[1..])
  }

  lemma {:induction false} GetSpec(cs: seq<Cell>, p: string)
    requires cs != [] && Good(cs) && Finite(cs)
    ensures GetAnswers(cs, p, Get(cs, p)) && Finite(Get(cs, p).1)
    decreases |cs|, cs[0].end + 1 - cs[0].current
  {
    var c := cs[0];
    assert Ranged(c) && !IsEndless(c);
    FiniteSame(cs, Get(cs, p).1);
    if c.current <= c.end {
      var value := p + Show(c, c.current);
      AdvanceRanged(c);
      GoodTail(cs);
      if |cs| == 1 {
        LastCellSpec(cs, p);
      } else {
        GetSpec(cs[1..], value);
        var (inner, rest) := Get(cs[1..], value);
        if inner != "" {
          InnerSpec(cs, p, inner, rest);
        } else {
          AgainGood(cs, rest);
          FiniteSame(cs, Again(c, rest));
          CarrySpec(cs, p, rest);
          GetSpec(Again(c, rest), p);
          SameRangesTrans(cs, Again(c, rest), Get(Again(c, rest), p).1);
        }
      }
    }
  }

  lemma FiniteSame(a: seq<Cell>, b: seq<Cell>)
    requires SameRanges(a, b) && Finite(a)
    ensures Finite(b)
  {
    forall i | 0 <= i < |b| ensures !IsEndless(b[i]) {
      assert a[i].(current := 0) == b[i].(current := 0);
    }
  }

  lemma SameRangesTrans(a: seq<Cell>, b: seq<Cell>, c: seq<Cell>)
    requires SameRanges(a, b) && SameRanges(b, c)
    ensures SameRanges(a, c)
  {
    forall i | 0 <= i < |a| ensures a[i].(current := 0) == c[i].(current := 0) {
      assert a[i].(current := 0) == b[i].(current := 0) == c[i].(current := 0);
    }
  }

  /** The last ellipsis prints its counter and moves on. */
  lemma LastCellSpec(cs: seq<Cell>, p: string)
    requires |cs| == 1 && Good(cs) && Finite(cs) && cs[0].current <= cs[0].end
    ensures GetAnswers(cs, p, Get(cs, p))
  {
    var c := cs[0];
    var next := [c.(current := c.current + 1)];
    AdvanceRanged(c);
    var value := p + Show(c, c.current);
    assert cs[1..] == [] && next[1..] == [];
    assert Ranged(c);
    assert Remaining(cs, p) == [value] + ProductFrom(cs, c.current + 1, p);
    ProductFromSame(cs, next, c.current + 1, p);
    if c.current + 1 <= c.end {
      assert Product(next[1..], p + Show(next[0], c.current + 1)) == [p + Show(next[0], c.current + 1)];
      ProductFromSame(cs, next, c.current + 2, p);
    }
    assert Remaining(next, p) == ProductFrom(next, c.current + 1, p);
  }

  lemma TailOfSum(a: seq<string>, b: seq<string>)
    requires a != []
    ensures a + b != [] && (a + b)[0] == a[0] && (a + b)[1..] == a[1..] + b
  {
  }

  /** The ellipses behind had something left to print. */
  lemma InnerSpec(cs: seq<Cell>, p: string, inner: string, rest: seq<Cell>)
    requires |cs| > 1 && Good(cs) && cs[0].current <= cs[0].end && inner != ""
    requires GetAnswers(cs[1..], p + Show(cs[0], cs[0].current), (inner, rest))
    ensures GetAnswers(cs, p, (inner, [cs[0]] + rest))
  {
    var c := cs[0];
    var value := p + Show(c, c.current);
    var after := [c] + rest;
    assert cs == [c] + cs[1..];
    assert after[1..] == rest;
    GoodCons(c, rest);
    SameRangesCons(c, c, cs[1..], rest);
    ProductFromSame(cs, after, c.current + 1, p);
    var left := Remaining(cs[1..], value);
    assert Remaining(cs, p) == left + ProductFrom(cs, c.current + 1, p);
    assert left != [];
    TailOfSum(left, ProductFrom(cs, c.current + 1, p));
    assert Remaining(after, p) == left[1..] + ProductFrom(after, c.current + 1, p);
  }

  /** An exhausted chain with its first counter reset is fresh again. */
  lemma ResetFresh(rest: seq<Cell>)
    requires rest != [] && Good(rest) && rest[0].current > rest[0].end
    ensures
      var reset := [Reset(rest[0])] + rest[1..];
      Fresh(reset) && AllRanged(reset) && SameRanges(rest, reset)
  {
    var reset := [Reset(rest[0])] + rest[1..];
    assert Ranged(rest[0]) && Fresh(rest[1..]);
    forall i | 0 <= i < |reset|
      ensures reset[i].current == reset[i].start && Ranged(reset[i])
      ensures rest[i].(current := 0) == reset[i].(current := 0)
    {
      if i > 0 {
        assert reset[i] == rest[i] == rest[1..][i - 1];
      }
    }
  }

  /** They had nothing left: they start over behind the next value of this one. */
  lemma CarrySpec(cs: seq<Cell>, p: string, rest: seq<Cell>)
    requires |cs| > 1 && Good(cs) && Finite(cs) && cs[0].current <= cs[0].end
    requires GetAnswers(cs[1..], p + Show(cs[0], cs[0].current), ("", rest)) && Good(rest)
    requires SameRanges(cs, Again(cs[0], rest))
    ensures Remaining(Again(cs[0], rest), p) == Remaining(cs, p)
  {
    AdvanceRanged(cs[0]);
    ResetFresh(rest);
    CarryRemaining(cs, p, Advance(cs[0]), [Reset(rest[0])] + rest[1..]);
  }

  lemma CarryRemaining(cs: seq<Cell>, p: string, next: Cell, reset: seq<Cell>)
    requires |cs| > 1 && cs[0].current <= cs[0].end && next == cs[0].(current := cs[0].current + 1)
    requires Remaining(cs[1..], p + Show(cs[0], cs[0].current)) == []
    requires Fresh(reset) && AllRanged(reset) && SameRanges(cs, [next] + reset)
    ensures Remaining([next] + reset, p) == Remaining(cs, p)
  {
    var again := [next] + reset;
    assert again[1..] == reset;
    assert Remaining(cs, p) == ProductFrom(cs, next.current, p);
    ProductFromSame(cs, again, next.current, p);
    if next.current <= next.end {
      FreshRemaining(reset, p + Show(next, next.current));
    }
  }

  // ---------------------------------------------------------------- expand, turn by turn

  /** What the first `n` turns of expand's loop append. */
  function Printed(cs: seq<Cell>, n: nat): seq<string>
    requires cs != [] && Good(cs)
    decreases n
  {
    if n == 0 then []
    else
      var (value, rest) := Get(cs, "");
      if value == "" then [] else [value] + Printed(rest, n - 1)
  }

  /** The loop is left within `n` turns. */
  predicate Ends(cs: seq<Cell>, n: nat)
    requires cs != [] && Good(cs)
    decreases n
  {
    n > 0 && (Get(cs, "").0 == "" || Ends(Get(cs, "").1, n - 1))
  }

  lemma PrintedTurn(cs: seq<Cell>, n: nat)
    requires cs != [] && Good(cs) && n > 0
    ensures
      var (value, rest) := Get(cs, "");
      if value == "" then Printed(cs, n) == [] && Ends(cs, n)
      else Printed(cs, n) == [value] + Printed(rest, n - 1) && (Ends(cs, n) <==> Ends(rest, n - 1))
  {
  }

  /** The first `n` of them, or all. */
  function FirstOf(texts: seq<string>, n: nat): seq<string> {
    if n < |texts| then texts[..n] else texts
  }

  lemma FirstOfMore(texts: seq<string>, n: nat)
    requires n > 0 && texts != []
    ensures FirstOf(texts, n) == [texts[0]] + FirstOf(texts[1..], n - 1)
  {
  }

  /** With finite ranges the loop prints exactly what remains, one text a turn, and is then left. */
  lemma {:induction false} FinitePrints(cs: seq<Cell>, n: nat)
    requires cs != [] && Good(cs) && Finite(cs)
    ensures Printed(cs, n) == FirstOf(Remaining(cs, ""), n)
    ensures Ends(cs, n) <==> n > |Remaining(cs, "")|
    decreases n
  {
    GetSpec(cs, "");
    var left := Remaining(cs, "");
    if n > 0 && left != [] {
      FinitePrints(Get(cs, "").1, n - 1);
      FirstOfMore(left, n);
    }
  }

  /** Some range before which no counter is past its end is endless. */
  ghost predicate Unending(cs: seq<Cell>) {
    && cs != [] && cs[0].current <= cs[0].end
    && (IsEndless(cs[0]) || Unending(cs[1..]))
  }

  lemma {:induction false} UnendingNotSpent(cs: seq<Cell>)
    requires Unending(cs)
    ensures !Spent(cs)
  {
    if !IsEndless(cs[0]) {
      UnendingNotSpent(cs[1..]);
    }
  }

  lemma {:induction false} UnendingGet(cs: seq<Cell>, p: string)
    requires Good(cs) && Unending(cs)
    ensures Get(cs, p).0 != "" && Unending(Get(cs, p).1)
    decreases |cs|, if |cs| > 1 && Spent(cs[1..]) then 1 else 0
  {
    UnendingNotSpent(cs);
    var c := cs[0];
    assert Ranged(c);
    AdvanceRanged(c);
    if |cs| > 1 {
      GoodTail(cs);
      var (inner, rest) := Get(cs[1..], p + Show(c, c.current));
      if !IsEndless(c) {
        UnendingGet(cs[1..], p + Show(c, c.current));
        assert ([c] + rest)[1..] == rest;
      } else if inner == "" {
        AgainGood(cs, rest);
        UnendingGet(Again(c, rest), p);
      }
    }
  }

  lemma {:induction false} UnendingPrints(cs: seq<Cell>, n: nat)
    requires cs != [] && Good(cs) && Unending(cs)
    ensures |Printed(cs, n)| == n && !Ends(cs, n) && "" !in Printed(cs, n)
    decreases n
  {
    if n > 0 {
      UnendingGet(cs, "");
      UnendingPrints(Get(cs, "").1, n - 1);
    }
  }

  lemma EndlessTurn(c: Cell)
    requires Ranged(c) && IsEndless(c)
    ensures Good([c]) && c.current <= c.end
    ensures
      var next := c.(current := if c.current == 0xFFFF_FFFF_FFFF_FFFF then 0 else c.current + 1);
      Get([c], "") == (Show(c, c.current), [next]) && Ranged(next) && IsEndless(next)
  {
    assert [c][1..] == [];
    assert "" + Show(c, c.current) == Show(c, c.current);
    FitsWord(c.current);
    if c.current + 1 < WORD { FitsWord(c.current + 1); }
  }

  /** Where the counter of an endless range stands after `i` turns. */
  function Around(k: nat, i: nat): nat
    decreases i
  {
    if i == 0 then k else Around(if k == 0xFFFF_FFFF_FFFF_FFFF then 0 else k + 1, i - 1)
  }

  lemma {:induction false} AroundWraps(k: nat, i: nat)
    requires k < WORD
    ensures Around(k, i) == (k + i) % WORD
    decreases i
  {
    if i == 0 {
      FitsWord(k);
    } else if k < WORD - 1 {
      AroundWraps(k + 1, i - 1);
    } else {
      AroundWraps(0, i - 1);
      WrapMultiple(i - 1, 1);
    }
  }

  lemma {:induction false} EndlessTurns(c: Cell, n: nat)
    requires Ranged(c) && IsEndless(c)
    ensures Good([c]) && |Printed([c], n)| == n
    ensures forall i :: 0 <= i < n ==> Printed([c], n)[i] == Show(c, Around(c.current, i))
    decreases n
  {
    EndlessTurn(c);
    if n > 0 {
      var next := c.(current := if c.current == 0xFFFF_FFFF_FFFF_FFFF then 0 else c.current + 1);
      PrintedTurn([c], n);
      EndlessTurns(next, n - 1);
      forall i | 0 <= i < n ensures Printed([c], n)[i] == Show(c, Around(c.current, i)) {
        if i > 0 {
          assert Printed([c], n)[i] == Printed([next], n - 1)[i - 1];
          assert Show(next, Around(next.current, i - 1)) == Show(c, Around(c.current, i));
        }
      }
    }
  }

  /** What a single endless range prints: the numbers from its counter up to the largest word, and then from
      zero again, also those below its start. */
  lemma EndlessPrints(c: Cell, n: nat, i: nat)
    requires Ranged(c) && IsEndless(c) && i < n
    ensures Good([c]) && |Printed([c], n)| == n
    ensures Printed([c], n)[i] == Show(c, (c.current + i) % WORD)
  {
    EndlessTurns(c, n);
    AroundWraps(c.current, i);
  }

  lemma {:induction false} EndlessUnending(cs: seq<Cell>)
    requires Fresh(cs) && AllRanged(cs) && !Finite(cs)
    ensures Unending(cs)
  {
    var i :| 0 <= i < |cs| && IsEndless(cs[i]);
    assert cs[0].current == cs[0].start && Ranged(cs[0]);
    if i > 0 {
      assert cs[1..][i - 1] == cs[i];
      EndlessUnending(cs[1..]);
    }
  }

  /** From reset counters the loop goes on for ever, printing a text every turn, if and only if some
      range ends at the largest word. */
  lemma EndlessExactly(cs: seq<Cell>)
    requires cs != [] && Fresh(cs) && AllRanged(cs)
    ensures Good(cs)
    ensures (forall n: nat :: |Printed(cs, n)| == n && "" !in Printed(cs, n)) <==>
            exists i :: 0 <= i < |cs| && IsEndless(cs[i])
    ensures (forall n: nat :: !Ends(cs, n)) <==> exists i :: 0 <= i < |cs| && IsEndless(cs[i])
  {
    FreshGood(cs);
    if Finite(cs) {
      var n := |Remaining(cs, "")| + 1;
      FinitePrints(cs, n);
      assert |Printed(cs, n)| < n && Ends(cs, n);
    } else {
      EndlessUnending(cs);
      forall n: nat ensures |Printed(cs, n)| == n && !Ends(cs, n) && "" !in Printed(cs, n) {
        UnendingPrints(cs, n);
      }
    }
  }
}
