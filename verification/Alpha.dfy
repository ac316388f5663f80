/** Numbers written with letters: a..z, aa..zz, ... in 64-bit arithmetic. */
module Alpha {

  const WORD: nat := 0x1_0000_0000_0000_0000 // 2^64

  predicate IsAlpha(s: string) {
    forall i :: 0 <= i < |s| ==> 'a' <= s[i] <= 'z'
  }

  const ALPHABET: string := "abcdefghijklmnopqrstuvwxyz"

  function Digit(c: char): (d: nat)
    requires 'a' <= c <= 'z'
    ensures 1 <= d <= 26
  {
    c as int - 96
  }

  function Letter(d: nat): (c: char)
    requires 1 <= d <= 26
    ensures 'a' <= c <= 'z' && Digit(c) == d
  {
    (d + 96) as char
  }

  /** What the letters stand for, without any word size. */
  function Value(s: string): nat
    requires IsAlpha(s)
  {
    if s == "" then 0 else 26 * Value(s[..|s| - 1]) + Digit(s[|s| - 1])
  }

  function Letters(n: nat): (s: string)
    ensures IsAlpha(s) && (n > 0 ==> s != "")
  {
    if n == 0 then "" else Letters((n - 1) / 26) + [Letter((n - 1) % 26 + 1)]
  }

  // ---------------------------------------------------------------- inverse

  /** Numbers survive being written in letters... */
  lemma {:induction false} ValueOfLetters(n: nat)
    ensures Value(Letters(n)) == n
  {
    if n > 0 {
      var s := Letters(n);
      assert s[..|s| - 1] == Letters((n - 1) / 26);
      ValueOfLetters((n - 1) / 26);
    }
  }

  /** ...and letters survive being read as a number. */
  lemma {:induction false} LettersOfValue(s: string)
    requires IsAlpha(s)
    ensures Letters(Value(s)) == s
  {
    if s != "" {
      var init, d := s[..|s| - 1], Digit(s[|s| - 1]);
      LettersOfValue(init);
      var n := Value(s);
      assert (n - 1) / 26 == Value(init) && (n - 1) % 26 == d - 1;
      assert s == init + [s[|s| - 1]];
    }
  }

  // ---------------------------------------------------------------- word size

  function Pow26(n: nat): (p: nat)
    ensures p > 0
  {
    if n == 0 then 1 else 26 * Pow26(n - 1)
  }

  lemma {:induction false} ValueBound(s: string)
    requires IsAlpha(s)
    ensures 25 * Value(s) + 26 <= Pow26(|s| + 1)
  {
    if s != "" {
      ValueBound(s[..|s| - 1]);
    }
  }

  lemma {:induction false} Pow26Monotone(m: nat, n: nat)
    requires m <= n
    ensures Pow26(m) <= Pow26(n)
  {
    if m < n {
      Pow26Monotone(m, n - 1);
    }
  }

  /** Thirteen letters always fit in a word. */
  lemma ThirteenLettersFit(s: string)
    requires IsAlpha(s) && |s| <= 13
    ensures Value(s) < WORD
  {
    ValueBound(s);
    Pow26Monotone(|s| + 1, 14);
    assert Pow26(4) == 456976;
    assert Pow26(8) == 456976 * 456976 by {
      assert Pow26(6) == 26 * 26 * 456976;
    }
    assert Pow26(11) == 26 * 26 * 26 * 456976 * 456976 by {
      assert Pow26(10) == 26 * 26 * 456976 * 456976;
    }
    assert Pow26(14) == 26 * 26 * 26 * 26 * 26 * 26 * 456976 * 456976 by {
      assert Pow26(13) == 26 * 26 * 26 * 26 * 26 * 456976 * 456976;
    }
  }

  /** One letter counts from a = 1 to z = 26, and each further letter to the left is worth 26 times as
      much, so `aa` follows `z`. */
  lemma LettersCount(s: string, c: char)
    requires IsAlpha(s) && 'a' <= c <= 'z'
    ensures ALPHABET[Digit(c) - 1] == c && Value(s + [c]) == 26 * Value(s) + Digit(c)
    ensures Value("a") == 1 && Value("z") == 26 && Value("aa") == 27 && Value("az") == 52 && Value("ba") == 53
  {
    assert (s + [c])[..|s|] == s;
    assert "aa"[..1] == "a" && "az"[..1] == "a" && "ba"[..1] == "b";
    assert "a"[..0] == "" && "b"[..0] == "" && "z"[..0] == "";
  }

  lemma ShiftProduct(d: nat, p: nat)
    ensures 26 * (d * p) == d * (26 * p)
  {
  }

  /** Splitting off the first letter. */
  lemma {:induction false} ValueFront(s: string)
    requires IsAlpha(s) && s != ""
    ensures Value(s) == Digit(s[0]) * Pow26(|s| - 1) + Value(s[1..])
  {
    if |s| > 1 {
      var init, rest := s[..|s| - 1], s[1..];
      ValueFront(init);
      assert init[1..] == rest[..|rest| - 1] && rest[|rest| - 1] == s[|s| - 1];
      ShiftProduct(Digit(s[0]), Pow26(|s| - 2));
      assert Value(rest) == 26 * Value(init[1..]) + Digit(s[|s| - 1]);
    } else {
      assert s[..0] == "" && s[1..] == "";
    }
  }

  /** Arithmetic on uint64. */
  function Add64(a: nat, b: nat): nat {
    (a + b) % WORD
  }

  function Mul64(a: nat, b: nat): nat {
    a * b % WORD
  }

  lemma {:induction false} WrapMultiple(x: nat, k: nat)
    ensures (x + k * WORD) % WORD == x % WORD
  {
    if k > 0 {
      WrapMultiple(x, k - 1);
      assert x + k * WORD == (x + (k - 1) * WORD) + WORD;
    }
  }

  /** Wrapping each operation wraps the whole. */
  lemma WrapMul(d: nat, p: nat)
    ensures Mul64(d, p % WORD) == d * p % WORD
  {
    var k := p / WORD;
    assert p == k * WORD + p % WORD;
    assert d * p == d * (p % WORD) + (d * k) * WORD;
    WrapMultiple(d * (p % WORD), d * k);
  }

  lemma WrapAdd(a: nat, b: nat)
    ensures Add64(a % WORD, b % WORD) == (a + b) % WORD
  {
    var j, k := a / WORD, b / WORD;
    assert a + b == (a % WORD + b % WORD) + (j + k) * WORD;
    WrapMultiple(a % WORD + b % WORD, j + k);
  }

  /** One turn of alpha2int's loop. */
  lemma Alpha2IntTurn(value: string, i: nat)
    requires IsAlpha(value) && i < |value|
    ensures
      var rest := value[i + 1..];
      && Value(value[i..]) % WORD == Add64(Value(rest) % WORD, Mul64(Digit(value[i]), Pow26(|rest|) % WORD))
      && Pow26(|rest| + 1) % WORD == Mul64(26, Pow26(|rest|) % WORD)
  {
    var rest := value[i + 1..];
    ValueFront(value[i..]);
    assert value[i..][1..] == rest && value[i..][0] == value[i];
    WrapMul(Digit(value[i]), Pow26(|rest|));
    WrapAdd(Value(rest), Digit(value[i]) * Pow26(|rest|));
    WrapMul(26, Pow26(|rest|));
  }

  /** alpha2int, in wrapping 64-bit arithmetic: the value modulo the word, so the value itself
      whenever that fits. */
  method Alpha2Int(value: string) returns (ui64: nat)
    requires IsAlpha(value)
    ensures ui64 == Value(value) % WORD
    ensures Value(value) < WORD ==> ui64 == Value(value)
  {
    ui64 := 0;
    var p := 1;
    var i := |value| - 1;
    assert value[|value|..] == "";
    while i >= 0
      invariant -1 <= i < |value|
      invariant ui64 == Value(value[i + 1..]) % WORD
      invariant p == Pow26(|value| - 1 - i) % WORD
    {
      Alpha2IntTurn(value, i);
      ui64 := Add64(ui64, Mul64(Digit(value[i]), p));
      p := Mul64(26, p);
      i := i - 1;
    }
    assert value[0..] == value;
    if Value(value) < WORD {
      FitsWord(Value(value));
    }
  }

  /** What int2alpha prints. Zero, which no letters stand for, wraps around below. */
  function AlphaText(n: nat): (s: string)
    ensures s != ""
  {
    if n == 0 then Letters((WORD - 26) / 26) + "z" else Letters(n)
  }

  /** The number int2alpha goes on with, after taking off the last letter. */
  function Higher(n: nat): nat {
    if n == 0 then (WORD - 26) / 26 else (n - 1) / 26
  }

  /** The letter it takes off, and the number it divides. */
  function Last(n: nat): (r: nat)
    ensures 1 <= r <= 26
  {
    if n % 26 == 0 then 26 else n % 26
  }

  function Dividend(n: nat): nat {
    if n % 26 != 0 then n else if n < 26 then n + WORD - 26 else n - 26
  }

  lemma LastLetter(n: nat)
    ensures AlphaText(n) == Letters(Higher(n)) + [Letter(Last(n))]
    ensures Dividend(n) / 26 == Higher(n)
  {
  }

  /** `ui64` is left to print before `value`. */
  ghost predicate Printing(n: nat, ui64: nat, value: string) {
    if value == "" then ui64 == n else ui64 > 0 && AlphaText(n) == Letters(ui64) + value
  }

  /** One turn of int2alpha's loop. */
  lemma Int2AlphaTurn(n: nat, ui64: nat, value: string)
    requires Printing(n, ui64, value)
    ensures
      var value' := [Letter(Last(ui64))] + value;
      var rest := Dividend(ui64) / 26;
      if Dividend(ui64) < 26 then AlphaText(n) == value'
      else Printing(n, rest, value') && (ui64 > 0 ==> rest < ui64)
  {
    LastLetter(ui64);
    var last := [Letter(Last(ui64))];
    assert (Letters(Higher(ui64)) + last) + value == Letters(Higher(ui64)) + (last + value);
  }

  method Int2Alpha(n: nat) returns (value: string)
    requires n < WORD
    ensures value == AlphaText(n)
  {
    value := "";
    var ui64: nat := n;
    while true
      invariant ui64 < WORD && Printing(n, ui64, value)
      decreases value == "", ui64
    {
      Int2AlphaTurn(n, ui64, value);
      var r := ui64 % 26;
      if r == 0 {
        r := 26;
        ui64 := if ui64 < 26 then ui64 + WORD - 26 else ui64 - 26;
      }
      value := [Letter(r)] + value;
      if ui64 < 26 {
        break;
      }
      ui64 := ui64 / 26;
    }
  }

  /** Every number of the word but zero survives int2alpha and alpha2int... */
  lemma NumberRoundTrip(n: nat)
    requires 1 <= n < WORD
    ensures IsAlpha(AlphaText(n)) && Value(AlphaText(n)) % WORD == n
  {
    ValueOfLetters(n);
    FitsWord(n);
  }

  lemma FitsWord(n: nat)
    requires n < WORD
    ensures n % WORD == n
  {
  }

  /** ...and so does every text whose value fits the word, the other way round. */
  lemma TextRoundTrip(s: string)
    requires IsAlpha(s) && s != "" && Value(s) < WORD
    ensures AlphaText(Value(s) % WORD) == s
  {
    LettersOfValue(s);
    FitsWord(Value(s));
    assert Value(s) > 0;
  }
}
