/** Document ids, after modules/docs/ids.go: a time in milliseconds and random bits, in 26 characters. */
module Ulid {

  newtype byte = x: int | 0 <= x < 256

  const CROCKFORD := "0123456789ABCDEFGHJKMNPQRSTVWXYZ"
  const TWO_48 := 0x1_0000_0000_0000
  const TWO_59 := 0x800_0000_0000_0000
  const TWO_64 := 0x1_0000_0000_0000_0000
  const TWO_80 := 0x1_0000_0000_0000_0000_0000
  const TWO_128 := 0x1_0000_0000_0000_0000_0000_0000_0000_0000

  /** The number some bytes are, most significant first. */
  function BigEndian(b: seq<byte>): nat {
    if b == [] then 0 else 256 * BigEndian(b[..|b| - 1]) + b[|b| - 1] as nat
  }

  predicate IsDigit(c: char) {
    c in CROCKFORD
  }

  ghost predicate Digits(s: string) {
    forall i :: 0 <= i < |s| ==> IsDigit(s[i])
  }

  function IndexIn(s: string, c: char): (k: nat)
    requires c in s
    ensures k < |s| && s[k] == c
  {
    if s[0] == c then 0 else 1 + IndexIn(s[1..], c)
  }

  function DigitValue(c: char): (d: nat)
    requires IsDigit(c)
    ensures d < 32
  {
    assert |CROCKFORD| == 32;
    IndexIn(CROCKFORD, c)
  }

  /** The number a string of digits is. */
  ghost function Value(s: string): nat
    requires Digits(s)
  {
    if s == "" then 0 else 32 * Value(s[..|s| - 1]) + DigitValue(s[|s| - 1])
  }

  /** The last `n` base-32 digits of a number. */
  function Encoded(v: nat, n: nat): (s: string)
    ensures |s| == n
  {
    if n == 0 then "" else Encoded(v / 32, n - 1) + [CROCKFORD[v % 32]]
  }

  ghost predicate Valid(s: string) {
    |s| == 26 && s[0] <= '7' && Digits(s)
  }

  /** Go's order on strings. */
  predicate Less(s: string, t: string) {
    t != "" && (s == "" || s[0] < t[0] || (s[0] == t[0] && Less(s[1..], t[1..])))
  }

  function Pow32(n: nat): (p: nat)
    ensures p > 0
  {
    if n == 0 then 1 else 32 * Pow32(n - 1)
  }

  //
  // The alphabet
  //

  lemma Alphabet()
    ensures |CROCKFORD| == 32
    ensures forall i :: 0 <= i < 31 ==> CROCKFORD[i] < CROCKFORD[i + 1]
    ensures forall i :: 0 <= i < 8 ==> CROCKFORD[i] as int == '0' as int + i
  {
  }

  lemma {:induction false} AlphabetAscends(i: nat, j: nat)
    requires i < j < 32
    ensures CROCKFORD[i] < CROCKFORD[j]
    decreases j
  {
    Alphabet();
    hide CROCKFORD;
    if i < j - 1 {
      AlphabetAscends(i, j - 1);
    }
    assert CROCKFORD[j - 1] < CROCKFORD[j - 1 + 1];
  }

  lemma DigitOf(k: nat)
    requires k < 32
    ensures IsDigit(CROCKFORD[k]) && DigitValue(CROCKFORD[k]) == k
  {
    var d := DigitValue(CROCKFORD[k]);
    if d < k {
      AlphabetAscends(d, k);
    } else if k < d {
      AlphabetAscends(k, d);
    }
  }

  lemma DigitOrder(c: char, d: char)
    requires IsDigit(c) && IsDigit(d)
    ensures c < d <==> DigitValue(c) < DigitValue(d)
  {
    var i, j := DigitValue(c), DigitValue(d);
    if i < j {
      AlphabetAscends(i, j);
    } else if j < i {
      AlphabetAscends(j, i);
    }
  }

  //
  // Numbers of n digits and strings of n digits
  //

  lemma {:induction false} EncodedDigits(v: nat, n: nat)
    ensures Digits(Encoded(v, n))
    decreases n
  {
    if n > 0 {
      EncodedDigits(v / 32, n - 1);
      DigitOf(v % 32);
    }
  }

  lemma DivBelow(v: nat, n: nat)
    requires n > 0 && v < Pow32(n)
    ensures v / 32 < Pow32(n - 1)
  {
  }

  lemma {:induction false} ValueOfEncoded(v: nat, n: nat)
    requires v < Pow32(n)
    ensures Digits(Encoded(v, n)) && Value(Encoded(v, n)) == v
    decreases n
  {
    hide CROCKFORD;
    EncodedDigits(v, n);
    if n > 0 {
      DivBelow(v, n);
      ValueOfEncoded(v / 32, n - 1);
      DigitOf(v % 32);
      var s := Encoded(v, n);
      assert s[..|s| - 1] == Encoded(v / 32, n - 1);
    }
  }

  /** The last digit and the number before it. */
  lemma DigitAndRest(s: string)
    requires Digits(s) && s != ""
    ensures var init := s[..|s| - 1];
            && Value(s) / 32 == Value(init) && CROCKFORD[Value(s) % 32] == s[|s| - 1] && s == init + [s[|s| - 1]]
            && (Value(init) < Pow32(|init|) ==> Value(s) < Pow32(|s|))
  {
    hide CROCKFORD;
    var d := DigitValue(s[|s| - 1]);
    assert Value(s) == 32 * Value(s[..|s| - 1]) + d && Value(s) % 32 == d;
  }

  lemma {:induction false} EncodedValue(s: string)
    requires Digits(s)
    ensures Value(s) < Pow32(|s|) && Encoded(Value(s), |s|) == s
    decreases |s|
  {
    hide CROCKFORD;
    if s != "" {
      var init := s[..|s| - 1];
      EncodedValue(init);
      DigitAndRest(s);
    }
  }

  /** A leading digit weighs 32 for each digit behind it. */
  lemma {:induction false} ValueFront(s: string)
    requires Digits(s) && s != ""
    ensures Value(s) == DigitValue(s[0]) * Pow32(|s| - 1) + Value(s[1..])
    decreases |s|
  {
    hide CROCKFORD, DigitValue;
    var n := |s|;
    if n == 1 {
      assert s[..0] == "" && s[1..] == "";
    } else {
      var init := s[..n - 1];
      ValueFront(init);
      assert s[1..][..n - 2] == init[1..];
      assert Value(s[1..]) == 32 * Value(init[1..]) + DigitValue(s[n - 1]);
      assert Pow32(n - 1) == 32 * Pow32(n - 2);
      Scale(DigitValue(s[0]), Pow32(n - 2));
    }
  }

  lemma Scale(d: nat, p: nat)
    ensures 32 * (d * p) == d * (32 * p)
  {
  }

  lemma HeadDecides(d: nat, e: nat, p: nat, x: nat, y: nat)
    requires d < e && x < p
    ensures d * p + x < e * p + y
  {
    assert (d + 1) * p <= e * p;
    assert (d + 1) * p == d * p + p;
  }

  /** Between strings of as many digits, the order of the strings is the order of the numbers. */
  lemma {:induction false} OrderIsNumeric(s: string, t: string)
    requires Digits(s) && Digits(t) && |s| == |t|
    ensures Less(s, t) <==> Value(s) < Value(t)
    decreases |s|
  {
    hide CROCKFORD, DigitValue;
    if s != "" {
      ValueFront(s);
      ValueFront(t);
      EncodedValue(s[1..]);
      EncodedValue(t[1..]);
      DigitOrder(s[0], t[0]);
      DigitOrder(t[0], s[0]);
      var d, e, p := DigitValue(s[0]), DigitValue(t[0]), Pow32(|s| - 1);
      OrderIsNumeric(s[1..], t[1..]);
      if d < e {
        HeadDecides(d, e, p, Value(s[1..]), Value(t[1..]));
      } else if e < d {
        HeadDecides(e, d, p, Value(t[1..]), Value(s[1..]));
      } else {
        assert s[0] == t[0];
      }
    }
  }

  //
  // The encoder
  //

  lemma ShiftStep(hi: nat, lo: nat)
    requires hi < TWO_64 && lo < TWO_64
    ensures lo / 32 + hi * TWO_59 % TWO_64 < TWO_64
    ensures (hi / 32) * TWO_64 + (lo / 32 + hi * TWO_59 % TWO_64) == (hi * TWO_64 + lo) / 32
    ensures lo % 32 == (hi * TWO_64 + lo) % 32
  {
    var q, r, p, m := hi / 32, hi % 32, lo / 32, lo % 32;
    assert hi * TWO_59 == q * TWO_64 + r * TWO_59;
    assert hi * TWO_59 % TWO_64 == r * TWO_59;
    assert hi * TWO_64 + lo == 32 * (q * TWO_64 + r * TWO_59 + p) + m;
  }

  function Pow256(n: nat): nat {
    if n == 0 then 1 else 256 * Pow256(n - 1)
  }

  lemma {:induction false} BigEndianBelow(b: seq<byte>)
    ensures BigEndian(b) < Pow256(|b|)
    decreases |b|
  {
    if b != [] {
      BigEndianBelow(b[..|b| - 1]);
    }
  }

  lemma Pow256Values()
    ensures Pow256(6) == TWO_48 && Pow256(8) == TWO_64 && Pow256(10) == TWO_80
  {
    assert Pow256(2) == 0x1_0000 && Pow256(4) == 0x1_0000_0000;
    assert Pow256(6) == 0x1_0000 * Pow256(4) && Pow256(8) == 0x1_0000 * Pow256(6) && Pow256(10) == 0x1_0000 * Pow256(8);
  }

  lemma {:induction false} BigEndianAppend(a: seq<byte>, b: seq<byte>)
    ensures BigEndian(a + b) == BigEndian(a) * Pow256(|b|) + BigEndian(b)
    decreases |b|
  {
    if b == [] {
      assert a + b == a;
    } else {
      var init := b[..|b| - 1];
      BigEndianAppend(a, init);
      assert (a + b)[..|a + b| - 1] == a + init;
      Scale256(BigEndian(a), Pow256(|init|));
    }
  }

  lemma Scale256(d: nat, p: nat)
    ensures 256 * (d * p) == d * (256 * p)
  {
  }

  /** `encodeULID`: the 128 bits as two words, five shifted out at a time into the last free place. The
    * left shift drops what leaves its 64-bit word, and the two halves it is or-ed from share no bit. */
  method Encode(b: seq<byte>) returns (s: string)
    requires |b| == 16
    ensures s == Encoded(BigEndian(b), 26)
  {
    hide CROCKFORD, BigEndian;
    BigEndianBelow(b[..8]);
    BigEndianBelow(b[8..]);
    BigEndianAppend(b[..8], b[8..]);
    Pow256Values();
    assert b[..8] + b[8..] == b;
    var hi: nat, lo: nat := BigEndian(b[..8]), BigEndian(b[8..]);
    ghost var v := BigEndian(b);
    var out := new char[26];
    assert out[26..] == "";
    for i := 26 downto 0
      invariant hi < TWO_64 && lo < TWO_64
      invariant Encoded(v, 26) == Encoded(hi * TWO_64 + lo, i) + out[i..]
    {
      ghost var rest := out[i + 1..];
      ShiftStep(hi, lo);
      Alphabet();
      out[i] := CROCKFORD[lo % 32];
      assert out[i..] == [out[i]] + rest;
      lo := lo / 32 + hi * TWO_59 % TWO_64;
      hi := hi / 32;
    }
    return out[..];
  }

  /** `ValidID`, character by character. */
  method ValidID(s: string) returns (ok: bool)
    ensures ok == Valid(s)
  {
    hide CROCKFORD;
    if |s| != 26 || s[0] > '7' {
      return false;
    }
    for i := 0 to |s|
      invariant Digits(s[..i])
    {
      if s[i] !in CROCKFORD {
        assert !IsDigit(s[i]);
        return false;
      }
    }
    assert s[..|s|] == s;
    return true;
  }

  /** The id of a millisecond, counted from 1970 and possibly before it, and ten random bytes. */
  ghost function IdAt(ms: int, random: seq<byte>): string
    requires |random| == 10
  {
    Encoded(ms % TWO_48 * TWO_80 + BigEndian(random), 26)
  }

  /** `newULID`: the low 48 bits of the clock, then the random bytes. */
  method NewId(ms: int, random: seq<byte>) returns (s: string)
    requires |random| == 10
    ensures s == IdAt(ms, random)
  {
    hide BigEndian, Encoded;
    var u := ms % TWO_64;
    var b := new byte[16](i => if 6 <= i < 16 then random[i - 6] else 0);
    b[0] := (u / 0x100_0000_0000 % 256) as byte;
    b[1] := (u / 0x1_0000_0000 % 256) as byte;
    b[2] := (u / 0x100_0000 % 256) as byte;
    b[3] := (u / 0x1_0000 % 256) as byte;
    b[4] := (u / 0x100 % 256) as byte;
    b[5] := (u % 256) as byte;
    ghost var head := b[..6];
    assert b[..] == head + random;
    TimeBytes(u, head);
    TimeWraps(ms);
    BigEndianAppend(head, random);
    Pow256Values();
    s := Encode(b[..]);
  }

  lemma OneMoreByte(b: seq<byte>, k: nat)
    requires k < |b|
    ensures BigEndian(b[..k + 1]) == 256 * BigEndian(b[..k]) + b[k] as nat
  {
    assert b[..k + 1][..k] == b[..k];
  }

  lemma SixBytes(b: seq<byte>)
    requires |b| == 6
    ensures BigEndian(b) == 256 * (256 * (256 * (256 * (256 * b[0] as nat + b[1] as nat) + b[2] as nat) + b[3] as nat)
                                   + b[4] as nat) + b[5] as nat
  {
    assert b[..0] == [] && b[..6] == b;
    assert BigEndian([]) == 0;
    hide BigEndian;
    OneMoreByte(b, 0);
    OneMoreByte(b, 1);
    OneMoreByte(b, 2);
    OneMoreByte(b, 3);
    OneMoreByte(b, 4);
    OneMoreByte(b, 5);
  }

  lemma LowBytes(u: nat)
    ensures u % TWO_48 == 256 * (256 * (256 * (256 * (256 * (u / 0x100_0000_0000 % 256) + u / 0x1_0000_0000 % 256)
                                               + u / 0x100_0000 % 256) + u / 0x1_0000 % 256) + u / 0x100 % 256) + u % 256
  {
    var u1, u2, u3 := u / 0x100, u / 0x1_0000, u / 0x100_0000;
    var u4, u5, u6 := u / 0x1_0000_0000, u / 0x100_0000_0000, u / TWO_48;
    NextPlaces(u);
    SixPlaces(u, u1, u2, u3, u4, u5, u6);
  }

  lemma NextPlaces(u: nat)
    ensures u / 0x1_0000 == u / 0x100 / 256
    ensures u / 0x100_0000 == u / 0x1_0000 / 256
    ensures u / 0x1_0000_0000 == u / 0x100_0000 / 256
    ensures u / 0x100_0000_0000 == u / 0x1_0000_0000 / 256
    ensures u / TWO_48 == u / 0x100_0000_0000 / 256
  {
  }

  lemma SixPlaces(u: nat, u1: nat, u2: nat, u3: nat, u4: nat, u5: nat, u6: nat)
    requires u1 == u / 256 && u2 == u1 / 256 && u3 == u2 / 256 && u4 == u3 / 256 && u5 == u4 / 256 && u6 == u5 / 256
    requires u6 == u / TWO_48
    ensures u % TWO_48 == 256 * (256 * (256 * (256 * (256 * (u5 % 256) + u4 % 256) + u3 % 256) + u2 % 256) + u1 % 256) + u % 256
  {
    var r5, r4, r3, r2, r1, r0 := u5 % 256, u4 % 256, u3 % 256, u2 % 256, u1 % 256, u % 256;
    assert u5 == 256 * u6 + r5 && u4 == 256 * u5 + r4 && u3 == 256 * u4 + r3;
    assert u2 == 256 * u3 + r2 && u1 == 256 * u2 + r1 && u == 256 * u1 + r0;
    assert u == TWO_48 * u6 + u % TWO_48;
  }

  /** Six bytes of a number are its low 48 bits. */
  lemma TimeBytes(u: nat, b: seq<byte>)
    requires |b| == 6
    requires b[0] as int == u / 0x100_0000_0000 % 256 && b[1] as int == u / 0x1_0000_0000 % 256
    requires b[2] as int == u / 0x100_0000 % 256 && b[3] as int == u / 0x1_0000 % 256
    requires b[4] as int == u / 0x100 % 256 && b[5] as int == u % 256
    ensures BigEndian(b) == u % TWO_48
  {
    SixBytes(b);
    LowBytes(u);
  }

  lemma TimeWraps(ms: int)
    ensures ms % TWO_64 % TWO_48 == ms % TWO_48
  {
    assert ms == ms / TWO_64 * TWO_64 + ms % TWO_64;
    assert TWO_64 == 0x1_0000 * TWO_48;
  }

  //
  // Ids
  //

  lemma TopDigit()
    ensures Pow32(25) * 8 == TWO_128 && Pow32(26) > TWO_128
  {
    assert Pow32(5) == 0x200_0000;
    assert Pow32(10) == 0x200_0000 * Pow32(5);
    assert Pow32(15) == 0x200_0000 * Pow32(10);
    assert Pow32(20) == 0x200_0000 * Pow32(15);
    assert Pow32(25) == 0x200_0000 * Pow32(20);
  }

  /** Every 128-bit value has an id, and the id gives it back. */
  lemma IdOfValue(v: nat)
    requires v < TWO_128
    ensures Valid(Encoded(v, 26)) && Value(Encoded(v, 26)) == v
  {
    hide CROCKFORD, DigitValue, Encoded;
    TopDigit();
    ValueOfEncoded(v, 26);
    var s := Encoded(v, 26);
    ValueFront(s);
    FirstDigit(s);
  }

  /** Every valid id is that of one 128-bit value. */
  lemma ValueOfId(s: string)
    requires Valid(s)
    ensures Value(s) < TWO_128 && Encoded(Value(s), 26) == s
  {
    hide CROCKFORD, DigitValue, Encoded;
    TopDigit();
    EncodedValue(s);
    EncodedValue(s[1..]);
    ValueFront(s);
    FirstDigit(s);
  }

  lemma FirstDigit(s: string)
    requires s != "" && IsDigit(s[0])
    ensures s[0] <= '7' <==> DigitValue(s[0]) < 8
  {
    Alphabet();
    DigitOf(7);
    DigitOrder(CROCKFORD[7], s[0]);
  }

  /** Ids sort as their values do. */
  lemma IdsSortAsValues(s: string, t: string)
    requires Valid(s) && Valid(t)
    ensures Less(s, t) <==> Value(s) < Value(t)
  {
    OrderIsNumeric(s, t);
  }

  /** New ids sort by time as far as 48 bits count it, and by their random bytes within a millisecond. */
  lemma NewIdsSort(ms: int, random: seq<byte>, ms': int, random': seq<byte>)
    requires |random| == 10 && |random'| == 10
    ensures Valid(IdAt(ms, random)) && Valid(IdAt(ms', random'))
    ensures Less(IdAt(ms, random), IdAt(ms', random')) <==>
            ms % TWO_48 < ms' % TWO_48
            || (ms % TWO_48 == ms' % TWO_48 && BigEndian(random) < BigEndian(random'))
  {
    Pow256Values();
    BigEndianBelow(random);
    BigEndianBelow(random');
    IdOfValue(ms % TWO_48 * TWO_80 + BigEndian(random));
    IdOfValue(ms' % TWO_48 * TWO_80 + BigEndian(random'));
    IdsSortAsValues(IdAt(ms, random), IdAt(ms', random'));
  }

  /** Until 48 bits of milliseconds are used up, an id of an earlier millisecond sorts first whatever the
    * random bytes. */
  lemma EarlierSortsFirst(ms: int, random: seq<byte>, ms': int, random': seq<byte>)
    requires |random| == 10 && |random'| == 10
    requires 0 <= ms < ms' < TWO_48
    ensures Less(IdAt(ms, random), IdAt(ms', random'))
  {
    hide Encoded, BigEndian, Less, Valid;
    NewIdsSort(ms, random, ms', random');
  }
}
