/**
  Plain text for numbers and strings: hexadecimal digits closed by a space. With it the codecs that the theorems take as
  parameters can be written down, so no theorem is about nothing.
 */
module Tokens {
  import opened ByteLines

  const SPACE: byte := 32
  const EXCLAMATION: byte := 33

  function Digit(d: nat): (b: byte)
    requires d < 16
    ensures b != SPACE && b != NEWLINE && b != CARRIAGE_RETURN && b != EXCLAMATION
  {
    if d == 0 then 48 else if d == 1 then 49 else if d == 2 then 50 else if d == 3 then 51
    else if d == 4 then 52 else if d == 5 then 53 else if d == 6 then 54 else if d == 7 then 55
    else if d == 8 then 56 else if d == 9 then 57 else if d == 10 then 97 else if d == 11 then 98
    else if d == 12 then 99 else if d == 13 then 100 else if d == 14 then 101 else 102
  }

  lemma DigitFixes(a: nat, b: nat)
    requires a < 16 && b < 16 && Digit(a) == Digit(b)
    ensures a == b
  {
  }

  /** Bytes that neither end a token nor break a line. */
  predicate Clean(bytes: seq<byte>) {
    forall i :: 0 <= i < |bytes| ==>
      bytes[i] != SPACE && bytes[i] != NEWLINE && bytes[i] != CARRIAGE_RETURN && bytes[i] != EXCLAMATION
  }

  // ----- numbers -----

  function Number(n: nat): (bytes: seq<byte>)
    ensures Clean(bytes)
  {
    if n == 0 then [] else Number(n / 16) + [Digit(n % 16)]
  }

  lemma LastOf(a: seq<byte>, x: byte, b: seq<byte>, y: byte)
    requires a + [x] == b + [y]
    ensures a == b && x == y
  {
    assert |a| == |b|;
    assert a == (a + [x])[..|a|] && b == (b + [y])[..|a|];
    assert x == (a + [x])[|a|] && y == (b + [y])[|a|];
  }

  lemma {:induction false} NumberFixes(a: nat, b: nat)
    requires Number(a) == Number(b)
    ensures a == b
  {
    if a != 0 && b != 0 {
      LastOf(Number(a / 16), Digit(a % 16), Number(b / 16), Digit(b % 16));
      DigitFixes(a % 16, b % 16);
      NumberFixes(a / 16, b / 16);
    }
  }

  function Power(k: nat): (p: nat)
    ensures p >= 1
  {
    if k == 0 then 1 else 16 * Power(k - 1)
  }

  lemma {:induction false} PowerSum(a: nat, b: nat)
    ensures Power(a + b) == Power(a) * Power(b)
  {
    if a > 0 { PowerSum(a - 1, b); }
  }

  lemma {:induction false} NumberLength(n: nat, k: nat)
    requires n < Power(k)
    ensures |Number(n)| <= k
  {
    if n != 0 { NumberLength(n / 16, k - 1); }
  }

  // ----- strings -----

  /** The last k hexadecimal digits. */
  function Digits(n: nat, k: nat): (bytes: seq<byte>)
    ensures |bytes| == k && Clean(bytes)
  {
    if k == 0 then [] else Digits(n / 16, k - 1) + [Digit(n % 16)]
  }

  lemma {:induction false} DigitsFix(a: nat, b: nat, k: nat)
    requires a < Power(k) && b < Power(k) && Digits(a, k) == Digits(b, k)
    ensures a == b
  {
    if k > 0 {
      LastOf(Digits(a / 16, k - 1), Digit(a % 16), Digits(b / 16, k - 1), Digit(b % 16));
      DigitFixes(a % 16, b % 16);
      DigitsFix(a / 16, b / 16, k - 1);
    }
  }

  function Character(c: char): (bytes: seq<byte>)
    ensures |bytes| == 6 && Clean(bytes)
  {
    Digits(c as int, 6)
  }

  lemma CharacterFixes(a: char, b: char)
    requires Character(a) == Character(b)
    ensures a == b
  {
    assert Power(6) == 0x100_0000 by {
      assert Power(1) == 16 && Power(2) == 256 && Power(3) == 0x1000;
      assert Power(4) == 0x1_0000 && Power(5) == 0x10_0000;
    }
    DigitsFix(a as int, b as int, 6);
  }

  function Text(s: string): (bytes: seq<byte>)
    ensures |bytes| == 6 * |s| && Clean(bytes)
  {
    if s == "" then [] else Text(s[..|s| - 1]) + Character(s[|s| - 1])
  }

  lemma {:induction false} TextFixes(a: string, b: string)
    requires Text(a) == Text(b)
    ensures a == b
  {
    if a != "" {
      var x, y := Text(a[..|a| - 1]), Text(b[..|b| - 1]);
      assert x == Text(a)[..|x|] && y == Text(b)[..|y|];
      assert Character(a[|a| - 1]) == Text(a)[|x|..] && Character(b[|b| - 1]) == Text(b)[|y|..];
      CharacterFixes(a[|a| - 1], b[|b| - 1]);
      TextFixes(a[..|a| - 1], b[..|b| - 1]);
      assert a == a[..|a| - 1] + [a[|a| - 1]] && b == b[..|b| - 1] + [b[|b| - 1]];
    }
  }

  // ----- lists of tokens -----

  predicate AllClean(tokens: seq<seq<byte>>) {
    forall i :: 0 <= i < |tokens| ==> Clean(tokens[i])
  }

  function Spelled(tokens: seq<seq<byte>>): (bytes: seq<byte>)
    requires AllClean(tokens)
    ensures tokens != [] ==> bytes != []
    ensures NEWLINE !in bytes && CARRIAGE_RETURN !in bytes && EXCLAMATION !in bytes
  {
    if tokens == [] then [] else tokens[0] + [SPACE] + Spelled(tokens[1..])
  }

  lemma TokenEnds(a: seq<byte>, x: seq<byte>, b: seq<byte>, y: seq<byte>)
    requires Clean(a) && Clean(b) && a + [SPACE] + x == b + [SPACE] + y
    ensures a == b && x == y
  {
    var l, r := a + [SPACE] + x, b + [SPACE] + y;
    assert l[|a|] == SPACE && r[|b|] == SPACE;
    assert forall i :: 0 <= i < |a| ==> l[i] == a[i];
    assert forall i :: 0 <= i < |b| ==> r[i] == b[i];
    assert |a| == |b|;
    assert a == l[..|a|] && b == r[..|b|];
    assert x == l[|a| + 1..] && y == r[|b| + 1..];
  }

  /** What follows a list of as many tokens does not matter: no spelling begins another. */
  lemma {:induction false} SpelledFixes(a: seq<seq<byte>>, x: seq<byte>, b: seq<seq<byte>>, y: seq<byte>)
    requires AllClean(a) && AllClean(b) && |a| == |b| && Spelled(a) + x == Spelled(b) + y
    ensures a == b && x == y
  {
    if a == [] {
      assert Spelled(a) + x == x && Spelled(b) + y == y;
    } else {
      assert Spelled(a) + x == a[0] + [SPACE] + (Spelled(a[1..]) + x);
      assert Spelled(b) + y == b[0] + [SPACE] + (Spelled(b[1..]) + y);
      TokenEnds(a[0], Spelled(a[1..]) + x, b[0], Spelled(b[1..]) + y);
      SpelledFixes(a[1..], x, b[1..], y);
      assert a == [a[0]] + a[1..] && b == [b[0]] + b[1..];
    }
  }

  function Size(tokens: seq<seq<byte>>): nat {
    if tokens == [] then 0 else |tokens[0]| + 1 + Size(tokens[1..])
  }

  lemma {:induction false} SpelledSize(tokens: seq<seq<byte>>)
    requires AllClean(tokens)
    ensures |Spelled(tokens)| == Size(tokens)
  {
    if tokens != [] { SpelledSize(tokens[1..]); }
  }

  lemma {:induction false} SpelledWhole(a: seq<seq<byte>>, b: seq<seq<byte>>)
    requires AllClean(a) && AllClean(b) && Spelled(a) == Spelled(b)
    ensures a == b
  {
    if a != [] && b != [] {
      TokenEnds(a[0], Spelled(a[1..]), b[0], Spelled(b[1..]));
      SpelledWhole(a[1..], b[1..]);
      assert a == [a[0]] + a[1..] && b == [b[0]] + b[1..];
    }
  }

  lemma {:induction false} SizeMore(a: seq<seq<byte>>, b: seq<seq<byte>>)
    ensures Size(a + b) == Size(a) + Size(b)
  {
    if a == [] {
      assert a + b == b;
    } else {
      assert (a + b)[1..] == a[1..] + b;
      SizeMore(a[1..], b);
    }
  }

  lemma SizeOne(a: seq<byte>)
    ensures Size([a]) == |a| + 1
  {
    assert [a][1..] == [];
  }

  /** One token for each string. */
  function Texts(strings: seq<string>): (tokens: seq<seq<byte>>)
    ensures AllClean(tokens) && |tokens| == |strings|
    ensures forall i :: 0 <= i < |strings| ==> tokens[i] == Text(strings[i])
  {
    if strings == [] then [] else [Text(strings[0])] + Texts(strings[1..])
  }

  lemma TextsFix(a: seq<string>, b: seq<string>)
    requires Texts(a) == Texts(b)
    ensures a == b
  {
    assert |a| == |b|;
    forall i | 0 <= i < |a| ensures a[i] == b[i] {
      assert Texts(a)[i] == Texts(b)[i];
      TextFixes(a[i], b[i]);
    }
  }
}
