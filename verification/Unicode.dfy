/** UTF-8 as the sequences of Unicode characters it stands for (RFC 3629). */
module Unicode {
  import opened Bytes
  import opened Closing

  /** The numbers of characters; those between are kept for UTF-16. */
  predicate Scalar(n: nat) {
    n < 0xD800 || 0xE000 <= n <= 0x10FFFF
  }

  predicate Scalars(s: seq<nat>) {
    forall n :: n in s ==> Scalar(n)
  }

  /** The bytes of one character, as numbers. */
  function Units(n: nat): seq<nat>
    requires Scalar(n)
  {
    if n < 0x80 then [n]
    else if n < 0x800 then [0xC0 + n / 64, 0x80 + n % 64]
    else if n < 0x1_0000 then [0xE0 + n / 4096, 0x80 + n / 64 % 64, 0x80 + n % 64]
    else [0xF0 + n / 262144, 0x80 + n / 4096 % 64, 0x80 + n / 64 % 64, 0x80 + n % 64]
  }

  function Numbers(b: seq<byte>): (r: seq<nat>)
    ensures |r| == |b|
  {
    seq(|b|, i requires 0 <= i < |b| => b[i] as int)
  }

  /** The bytes stand for the characters, one after another. */
  predicate Spells(b: seq<byte>, s: seq<nat>)
    requires Scalars(s)
    decreases |s|
  {
    if s == [] then b == []
    else
      var k := |Units(s[0])|;
      k <= |b| && Numbers(b[..k]) == Units(s[0]) && (assert s[0] in s && Scalars(s[1..]); Spells(b[k..], s[1..]))
  }

  /** Order among bytes is order among their numbers. */
  lemma Order(a: byte, b: byte)
    ensures a <= b <==> a as int <= b as int
    ensures a == b <==> a as int == b as int
  {
  }

  /** The first byte of a character and its number pass the same tests. */
  predicate SameFirst(b: byte, n: nat) {
    && (b <= 0x7F <==> n <= 0x7F) && (0xC2 <= b <= 0xDF <==> 0xC2 <= n <= 0xDF)
    && (b == 0xE0 <==> n == 0xE0) && (b == 0xED <==> n == 0xED) && (b == 0xF0 <==> n == 0xF0)
    && (b == 0xF4 <==> n == 0xF4) && (0xF1 <= b <= 0xF3 <==> 0xF1 <= n <= 0xF3)
    && (0xE1 <= b <= 0xEC <==> 0xE1 <= n <= 0xEC) && (0xEE <= b <= 0xEF <==> 0xEE <= n <= 0xEF)
  }

  lemma FirstByNumber(b: byte)
    ensures SameFirst(b, b as int)
  {
    Order(b, 0x7F);
    Order(0xC2, b);
    Order(b, 0xDF);
    Order(b, 0xE0);
    Order(b, 0xED);
    Order(b, 0xF0);
    Order(b, 0xF4);
    Order(0xF1, b);
    Order(b, 0xF3);
    Order(0xE1, b);
    Order(b, 0xEC);
    Order(0xEE, b);
    Order(b, 0xEF);
  }

  /** So do a later byte and its number. */
  predicate SameLater(b: byte, n: nat) {
    && (0x80 <= b <==> 0x80 <= n) && (b <= 0xBF <==> n <= 0xBF)
    && (0xA0 <= b <==> 0xA0 <= n) && (b <= 0x9F <==> n <= 0x9F)
    && (0x90 <= b <==> 0x90 <= n) && (b <= 0x8F <==> n <= 0x8F)
  }

  lemma LaterByNumber(b: byte)
    ensures SameLater(b, b as int)
  {
    Order(0x80, b);
    Order(b, 0xBF);
    Order(0xA0, b);
    Order(b, 0x9F);
    Order(0x90, b);
    Order(b, 0x8F);
  }

  predicate Later(n: nat) {
    0x80 <= n <= 0xBF
  }

  /** The length of the character that numbers start with, or zero. */
  function LengthOf(u: seq<nat>): (n: nat)
    ensures n <= |u| && n <= 4
  {
    if |u| >= 1 && u[0] <= 0x7F then 1
    else if |u| >= 2 && 0xC2 <= u[0] <= 0xDF && Later(u[1]) then 2
    else if |u| >= 3 && 0xE0 <= u[0] <= 0xEF && Later(u[1]) && Later(u[2])
            && (u[0] == 0xE0 ==> u[1] >= 0xA0) && (u[0] == 0xED ==> u[1] < 0xA0) then 3
    else if |u| >= 4 && 0xF0 <= u[0] <= 0xF4 && Later(u[1]) && Later(u[2]) && Later(u[3])
            && (u[0] == 0xF0 ==> u[1] >= 0x90) && (u[0] == 0xF4 ==> u[1] < 0x90) then 4
    else 0
  }

  lemma SameLength(b: seq<byte>, u: seq<nat>)
    requires |b| == |u| && (b != [] ==> SameFirst(b[0], u[0]))
    requires forall i :: 1 <= i < |b| && i < 4 ==> SameLater(b[i], u[i])
    ensures CharLength(b) == LengthOf(u)
  {
  }

  lemma LengthByNumber(b: seq<byte>)
    ensures CharLength(b) == LengthOf(Numbers(b))
  {
    hide CharLength, LengthOf, SameFirst, SameLater;
    if b != [] {
      FirstByNumber(b[0]);
    }
    forall i | 1 <= i < |b| && i < 4 ensures SameLater(b[i], Numbers(b)[i]) {
      LaterByNumber(b[i]);
    }
    SameLength(b, Numbers(b));
  }

  /** The character that numbers start with. */
  function First(u: seq<nat>): nat
    requires LengthOf(u) > 0
  {
    var k := LengthOf(u);
    if k == 1 then u[0]
    else if k == 2 then (u[0] - 0xC0) * 64 + u[1] - 0x80
    else if k == 3 then (u[0] - 0xE0) * 4096 + (u[1] - 0x80) * 64 + u[2] - 0x80
    else (u[0] - 0xF0) * 262144 + (u[1] - 0x80) * 4096 + (u[2] - 0x80) * 64 + u[3] - 0x80
  }

  /** The digits of a number to the base 64. */
  lemma Digits(a: nat, b: nat, c: nat, d: nat)
    requires b < 64 && c < 64 && d < 64
    ensures var n := a * 262144 + b * 4096 + c * 64 + d;
            n % 64 == d && n / 64 % 64 == c && n / 4096 % 64 == b && n / 262144 == a
  {
    var n := a * 262144 + b * 4096 + c * 64 + d;
    assert n / 64 == a * 4096 + b * 64 + c;
    assert n / 4096 == a * 64 + b;
  }

  lemma UnitsOfTwo(c: nat, d: nat)
    requires 2 <= c < 32 && d < 64
    ensures Units(c * 64 + d) == [0xC0 + c, 0x80 + d]
  {
  }

  lemma UnitsOfThree(b: nat, c: nat, d: nat)
    requires b < 16 && c < 64 && d < 64 && (b == 0 ==> c >= 32) && (b == 13 ==> c < 32)
    ensures var n := b * 4096 + c * 64 + d; Scalar(n) && Units(n) == [0xE0 + b, 0x80 + c, 0x80 + d]
  {
    Digits(0, b, c, d);
  }

  lemma UnitsOfFour(a: nat, b: nat, c: nat, d: nat)
    requires a <= 4 && b < 64 && c < 64 && d < 64 && (a == 0 ==> b >= 16) && (a == 4 ==> b < 16)
    ensures var n := a * 262144 + b * 4096 + c * 64 + d;
            Scalar(n) && Units(n) == [0xF0 + a, 0x80 + b, 0x80 + c, 0x80 + d]
  {
    Digits(a, b, c, d);
  }

  lemma FirstIsScalar(u: seq<nat>)
    requires LengthOf(u) > 0
    ensures Scalar(First(u)) && Units(First(u)) == u[..LengthOf(u)]
  {
    hide Units;
    var k := LengthOf(u);
    if k == 1 {
      UnitsOfOne(u[0]);
      assert u[..1] == [u[0]];
    } else if k == 2 {
      UnitsOfTwo(u[0] - 0xC0, u[1] - 0x80);
      assert u[..2] == [u[0], u[1]];
    } else if k == 3 {
      UnitsOfThree(u[0] - 0xE0, u[1] - 0x80, u[2] - 0x80);
      assert u[..3] == [u[0], u[1], u[2]];
    } else {
      UnitsOfFour(u[0] - 0xF0, u[1] - 0x80, u[2] - 0x80, u[3] - 0x80);
      assert u[..4] == [u[0], u[1], u[2], u[3]];
    }
  }

  lemma UnitsOfOne(d: nat)
    requires d < 128
    ensures Units(d) == [d]
  {
  }

  lemma ScalarIsFirst(u: seq<nat>, n: nat)
    requires Scalar(n) && Units(n) <= u
    ensures LengthOf(u) == |Units(n)|
  {
    var k := |Units(n)|;
    assert forall i :: 0 <= i < k ==> u[i] == Units(n)[i];
    var a, b, c, d := n / 262144, n / 4096 % 64, n / 64 % 64, n % 64;
    assert n == a * 262144 + b * 4096 + c * 64 + d by { DigitsOf(n); }
    if k == 3 {
      assert a == 0 && n / 4096 == b;
    } else if k == 2 {
      assert n / 64 == c;
    }
  }

  lemma DigitsOf(n: nat)
    ensures n == n / 262144 * 262144 + n / 4096 % 64 * 4096 + n / 64 % 64 * 64 + n % 64
  {
    assert n / 262144 == n / 4096 / 64 && n / 4096 == n / 64 / 64;
  }

  /** What the relay takes for a character is one. */
  lemma CharIsScalar(b: seq<byte>) returns (n: nat)
    requires CharLength(b) > 0
    ensures Scalar(n) && Units(n) == Numbers(b[..CharLength(b)])
  {
    hide CharLength, LengthOf, First, Units;
    LengthByNumber(b);
    n := First(Numbers(b));
    FirstIsScalar(Numbers(b));
  }

  /** Every character is taken for one. */
  lemma ScalarIsChar(b: seq<byte>, n: nat)
    requires Scalar(n) && |Units(n)| <= |b| && Numbers(b[..|Units(n)|]) == Units(n)
    ensures CharLength(b) == |Units(n)|
  {
    hide CharLength, LengthOf, Units;
    LengthByNumber(b);
    var k := |Units(n)|;
    assert Numbers(b[..k]) == Numbers(b)[..k];
    ScalarIsFirst(Numbers(b), n);
  }

  /** The relay's check accepts exactly the bytes that stand for some characters. */
  lemma {:induction false} Utf8Exact(b: seq<byte>)
    ensures Utf8(b) <==> exists s :: Scalars(s) && Spells(b, s)
    decreases |b|
  {
    hide CharLength;
    if Utf8(b) {
      var s := Characters(b);
      assert Spells(b, s);
    }
    if s :| Scalars(s) && Spells(b, s) {
      SpelledIsUtf8(b, s);
    }
  }

  lemma {:induction false} Characters(b: seq<byte>) returns (s: seq<nat>)
    requires Utf8(b)
    ensures Scalars(s) && Spells(b, s)
    decreases |b|
  {
    hide CharLength, Units;
    if b == [] {
      s := [];
    } else {
      var n := CharIsScalar(b);
      var rest := Characters(b[CharLength(b)..]);
      s := [n] + rest;
      assert s[1..] == rest && s[0] == n;
      assert |Units(n)| == |Numbers(b[..CharLength(b)])| == CharLength(b);
    }
  }

  lemma {:induction false} SpelledIsUtf8(b: seq<byte>, s: seq<nat>)
    requires Scalars(s) && Spells(b, s)
    ensures Utf8(b)
    decreases |s|
  {
    hide CharLength, Units;
    if s != [] {
      assert s[0] in s;
      ScalarIsChar(b, s[0]);
      SpelledIsUtf8(b[|Units(s[0])|..], s[1..]);
      UnitsSome(s[0]);
    }
  }

  lemma UnitsSome(n: nat)
    requires Scalar(n)
    ensures 1 <= |Units(n)| <= 4
  {
  }
}
