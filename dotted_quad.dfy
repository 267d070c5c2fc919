/** IPv4 addresses in dotted-quad text and as 32-bit numbers: PHP's `ip2long`
    (which accepts exactly the text `inet_pton` accepts: four decimal octets
    below 256, no leading zeros) and `long2ip` (which reduces its argument
    modulo 2^32 before formatting). */
module DottedQuad {
  import opened Failures
  import opened PhpStrings

  const TwoTo32: nat := 0x1_0000_0000

  /** The pieces of `s` between occurrences of `sep`. */
  function Split(s: string, sep: char): (parts: seq<string>)
    ensures |parts| >= 1
  {
    if s == [] then [""]
    else
      var rest := Split(s[1..], sep);
      if s[0] == sep then [""] + rest else [[s[0]] + rest[0]] + rest[1..]
  }

  /** The pieces joined back, with `sep` between neighbours. */
  function Join(parts: seq<string>, sep: char): string
    requires |parts| >= 1
  {
    if |parts| == 1 then parts[0] else parts[0] + [sep] + Join(parts[1..], sep)
  }

  lemma {:induction false} SplitNoSep(p: string, sep: char)
    requires sep !in p
    ensures Split(p, sep) == [p]
    decreases |p|
  {
    if p != [] {
      SplitNoSep(p[1..], sep);
      assert p == [p[0]] + p[1..];
    }
  }

  lemma {:induction false} SplitCons(p: string, sep: char, r: string)
    requires sep !in p
    ensures Split(p + [sep] + r, sep) == [p] + Split(r, sep)
    decreases |p|
  {
    var s := p + [sep] + r;
    if p == [] {
      assert s[1..] == r;
    } else {
      assert s[1..] == p[1..] + [sep] + r;
      SplitCons(p[1..], sep, r);
      assert p == [p[0]] + p[1..];
    }
  }

  /** Splitting loses nothing: joining the pieces gives the text back. */
  lemma {:induction false} JoinSplit(s: string, sep: char)
    ensures Join(Split(s, sep), sep) == s
    decreases |s|
  {
    if s != [] {
      JoinSplit(s[1..], sep);
      var rest := Split(s[1..], sep);
      if s[0] != sep && |rest| > 1 {
        assert rest == [rest[0]] + rest[1..];
        assert Join(rest, sep) == rest[0] + [sep] + Join(rest[1..], sep);
      }
    }
  }

  /** One octet of an address as `inet_pton` accepts it. */
  predicate IsOctetText(t: string) {
    1 <= |t| && AllDigits(t) && (t[0] == '0' ==> |t| == 1) && DigitsValue(t) < 256
  }

  function Pack(a: nat, b: nat, c: nat, d: nat): nat {
    ((a * 256 + b) * 256 + c) * 256 + d
  }

  /** The four octets of a 32-bit number, most significant first. */
  function Octets(x: nat): (o: seq<nat>)
    requires x < TwoTo32
    ensures |o| == 4 && forall i :: 0 <= i < 4 ==> o[i] < 256
    ensures Pack(o[0], o[1], o[2], o[3]) == x
  {
    var q1 := x / 256;
    var q2 := q1 / 256;
    [q2 / 256, q2 % 256, q1 % 256, x % 256]
  }

  lemma OctetsOfPack(a: nat, b: nat, c: nat, d: nat)
    requires a < 256 && b < 256 && c < 256 && d < 256
    ensures Pack(a, b, c, d) < TwoTo32
    ensures Octets(Pack(a, b, c, d)) == [a, b, c, d]
  {
    var x := Pack(a, b, c, d);
    var q1 := (a * 256 + b) * 256 + c;
    var q2 := a * 256 + b;
    assert x / 256 == q1 && x % 256 == d;
    assert q1 / 256 == q2 && q1 % 256 == c;
    assert q2 / 256 == a && q2 % 256 == b;
  }

  /** PHP's `ip2long`: the number of a well-formed dotted quad, None (PHP's
      `false`) for any other text. */
  function Ip2Long(s: string): (r: Option<nat>)
    ensures r.Some? ==> r.value < TwoTo32
  {
    var p := Split(s, '.');
    if |p| == 4 && IsOctetText(p[0]) && IsOctetText(p[1]) && IsOctetText(p[2]) && IsOctetText(p[3]) then
      OctetsOfPack(DigitsValue(p[0]), DigitsValue(p[1]), DigitsValue(p[2]), DigitsValue(p[3]));
      Some(Pack(DigitsValue(p[0]), DigitsValue(p[1]), DigitsValue(p[2]), DigitsValue(p[3])))
    else None
  }

  /** `p` and `r` joined by a dot. */
  function Dot(p: string, r: string): string {
    p + ['.'] + r
  }

  /** Four pieces joined by dots. */
  function Quad(t0: string, t1: string, t2: string, t3: string): string {
    Dot(t0, Dot(t1, Dot(t2, t3)))
  }

  lemma SplitQuad(t0: string, t1: string, t2: string, t3: string)
    requires '.' !in t0 && '.' !in t1 && '.' !in t2 && '.' !in t3
    ensures Split(Quad(t0, t1, t2, t3), '.') == [t0, t1, t2, t3]
  {
    SplitNoSep(t3, '.');
    SplitCons(t2, '.', t3);
    SplitCons(t1, '.', Dot(t2, t3));
    SplitCons(t0, '.', Dot(t1, Dot(t2, t3)));
  }

  lemma JoinQuad(p: seq<string>)
    requires |p| == 4
    ensures Join(p, '.') == Quad(p[0], p[1], p[2], p[3])
  {
    var p1, p2 := p[1..], p[1..][1..];
    assert p2[1..] == [p[3]];
    assert Join(p2, '.') == Dot(p[2], p[3]);
    assert Join(p1, '.') == Dot(p[1], Join(p2, '.'));
  }

  /** The dotted quad of a number below 2^32. */
  function Format(x: nat): string
    requires x < TwoTo32
  {
    var o := Octets(x);
    Quad(NatToString(o[0]), NatToString(o[1]), NatToString(o[2]), NatToString(o[3]))
  }

  /** The dotted quad of four octets is their decimal texts joined by dots. */
  lemma FormatOfOctets(a: nat, b: nat, c: nat, d: nat)
    requires a < 256 && b < 256 && c < 256 && d < 256
    ensures Pack(a, b, c, d) < TwoTo32
    ensures Format(Pack(a, b, c, d)) == Quad(NatToString(a), NatToString(b), NatToString(c), NatToString(d))
  {
    OctetsOfPack(a, b, c, d);
  }

  /** The same, with the octets' texts given. */
  lemma FormatQuad(a: nat, b: nat, c: nat, d: nat, ta: string, tb: string, tc: string, td: string)
    requires a < 256 && b < 256 && c < 256 && d < 256
    requires NatToString(a) == ta && NatToString(b) == tb && NatToString(c) == tc && NatToString(d) == td
    ensures Pack(a, b, c, d) < TwoTo32 && Format(Pack(a, b, c, d)) == Quad(ta, tb, tc, td)
  {
    FormatOfOctets(a, b, c, d);
  }

  /** PHP's `long2ip` on a 64-bit build: the argument is cast to an unsigned
      long and truncated to 32 bits, so every int has an address, one that
      `ip2long` reads back as the int reduced modulo 2^32. */
  function Long2Ip(x: int): (s: string)
    ensures Ip2Long(s) == Some(x % TwoTo32)
  {
    Ip2LongOfFormat(x % TwoTo32);
    Format(x % TwoTo32)
  }

  /** A number packed from four octets, whose texts join to `s`, is
      formatted by `long2ip` as `s`. */
  lemma Long2IpOfQuad(x: int, a: nat, b: nat, c: nat, d: nat, ta: string, tb: string, tc: string, td: string, s: string)
    requires a < 256 && b < 256 && c < 256 && d < 256 && x == Pack(a, b, c, d)
    requires NatToString(a) == ta && NatToString(b) == tb && NatToString(c) == tc && NatToString(d) == td
    requires Quad(ta, tb, tc, td) == s
    ensures 0 <= x < TwoTo32 && Long2Ip(x) == s
  {
    FormatOfOctets(a, b, c, d);
    Long2IpBelow(x);
  }

  lemma Long2IpBelow(x: int)
    requires 0 <= x < TwoTo32
    ensures Long2Ip(x) == Format(x)
  {
    assert x % TwoTo32 == x;
  }

  lemma OctetText(n: nat)
    requires n < 256
    ensures IsOctetText(NatToString(n)) && DigitsValue(NatToString(n)) == n
    ensures '.' !in NatToString(n)
  {
    DigitsValueOfNatToString(n);
    var t := NatToString(n);
    assert forall i :: 0 <= i < |t| ==> t[i] != '.';
  }

  /** Formatting then parsing gives the number back. */
  lemma {:induction false} Ip2LongOfFormat(x: nat)
    requires x < TwoTo32
    ensures Ip2Long(Format(x)) == Some(x)
  {
    var o := Octets(x);
    OctetText(o[0]);
    OctetText(o[1]);
    OctetText(o[2]);
    OctetText(o[3]);
    SplitQuad(NatToString(o[0]), NatToString(o[1]), NatToString(o[2]), NatToString(o[3]));
  }

  /** Every text that `ip2long` accepts is the canonical form of its number. */
  lemma {:induction false} FormatOfIp2Long(s: string)
    requires Ip2Long(s).Some?
    ensures Format(Ip2Long(s).value) == s
  {
    var p := Split(s, '.');
    var v0, v1, v2, v3 := DigitsValue(p[0]), DigitsValue(p[1]), DigitsValue(p[2]), DigitsValue(p[3]);
    OctetsOfPack(v0, v1, v2, v3);
    NatToStringOfDigitsValue(p[0]);
    NatToStringOfDigitsValue(p[1]);
    NatToStringOfDigitsValue(p[2]);
    NatToStringOfDigitsValue(p[3]);
    JoinSplit(s, '.');
    JoinQuad(p);
  }

  /** `ip2long` and the formatter are inverse bijections between well-formed
      dotted quads and the numbers below 2^32. */
  lemma Ip2LongIff(s: string, x: nat)
    ensures Ip2Long(s) == Some(x) <==> x < TwoTo32 && s == Format(x)
  {
    if Ip2Long(s) == Some(x) {
      FormatOfIp2Long(s);
    }
    if x < TwoTo32 && s == Format(x) {
      Ip2LongOfFormat(x);
    }
  }
}
