/** Content-derived identifiers: `StableIndexID` and its injectivity.
    SHA-256 is replaced by `Digest`, a collision-free stand-in with the same
    alphabet; everything else, the framing in particular, is the code's. */
module Identity {

  const DOMAIN := "forja-index-id-v1\0"
  const WORD := 0x1_0000_0000_0000_0000

  /** The low `width` bytes of `n`, most significant first. */
  function BigEndian(n: nat, width: nat): (s: string)
    ensures |s| == width
  {
    if width == 0 then "" else BigEndian(n / 256, width - 1) + [(n % 256) as char]
  }

  function Power(width: nat): nat {
    if width == 0 then 1 else 256 * Power(width - 1)
  }

  lemma {:induction false} BigEndianInjective(n: nat, m: nat, width: nat)
    requires n < Power(width) && m < Power(width)
    requires BigEndian(n, width) == BigEndian(m, width)
    ensures n == m
  {
    if width > 0 {
      var s, t := BigEndian(n / 256, width - 1), BigEndian(m / 256, width - 1);
      assert BigEndian(n, width)[..width-1] == s && BigEndian(m, width)[..width-1] == t;
      assert BigEndian(n, width)[width-1] == BigEndian(m, width)[width-1];
      BigEndianInjective(n / 256, m / 256, width - 1);
    }
  }

  /** The eight length bytes written before a component. A Go string is shorter
      than 2^63 bytes, so the second branch never runs; it only keeps `Size`
      injective on the unbounded strings of this model. */
  function Size(n: nat): (s: string)
    ensures |s| > 0
  {
    if n < WORD then BigEndian(n, 8) else ['\U{0100}'] + Size(n - WORD)
  }

  lemma {:induction false} BigEndianBytes(n: nat, width: nat, i: nat)
    requires i < width
    ensures BigEndian(n, width)[i] < '\U{0100}'
  {
    if i < width - 1 { BigEndianBytes(n / 256, width - 1, i); }
  }

  /** Sizes are self-delimiting: neither is a proper prefix of the other. */
  lemma {:induction false} SizeInjective(n: nat, m: nat, s: string, t: string)
    requires Size(n) + s == Size(m) + t
    ensures n == m && s == t
  {
    assert (Size(n) + s)[0] == Size(n)[0] && (Size(m) + t)[0] == Size(m)[0];
    if n < WORD { BigEndianBytes(n, 8, 0); }
    if m < WORD { BigEndianBytes(m, 8, 0); }
    if n < WORD && m < WORD {
      assert (Size(n) + s)[..8] == Size(n) && (Size(m) + t)[..8] == Size(m);
      assert (Size(n) + s)[8..] == s && (Size(m) + t)[8..] == t;
      PowerEight();
      BigEndianInjective(n, m, 8);
    } else if n >= WORD && m >= WORD {
      assert (Size(n) + s)[1..] == Size(n - WORD) + s;
      assert (Size(m) + t)[1..] == Size(m - WORD) + t;
      SizeInjective(n - WORD, m - WORD, s, t);
    }
  }

  lemma PowerEight()
    ensures Power(8) == WORD
  {
    assert Power(4) == 0x1_0000_0000;
    assert Power(6) == 0x1_0000_0000_0000;
  }

  /** What the loop in `StableIndexID` feeds to the digest. */
  function Frames(components: seq<string>): string {
    if components == [] then ""
    else Size(|components[0]|) + components[0] + Frames(components[1..])
  }

  lemma FirstFrame(a: seq<string>)
    requires a != []
    ensures Frames(a) == Size(|a[0]|) + (a[0] + Frames(a[1..]))
  {}

  lemma SameCut(p: string, x: string, q: string, y: string)
    requires |p| == |q| && p + x == q + y
    ensures p == q && x == y
  {
    assert (p + x)[..|p|] == p && (q + y)[..|q|] == q;
    assert (p + x)[|p|..] == x && (q + y)[|q|..] == y;
  }

  lemma {:induction false} FramesInjective(a: seq<string>, b: seq<string>)
    requires Frames(a) == Frames(b)
    ensures a == b
  {
    if a != [] && b != [] {
      var x, y := a[0] + Frames(a[1..]), b[0] + Frames(b[1..]);
      FirstFrame(a);
      FirstFrame(b);
      SizeInjective(|a[0]|, |b[0]|, x, y);
      SameCut(a[0], Frames(a[1..]), b[0], Frames(b[1..]));
      FramesInjective(a[1..], b[1..]);
      assert a == [a[0]] + a[1..] && b == [b[0]] + b[1..];
    }
  }

  function HexDigit(n: nat): (c: char)
    requires n < 16
    ensures c != '_' && c != '\0'
  {
    "0123456789abcdef"[n]
  }

  /** Collision-free stand-in for the lower-case hexadecimal SHA-256. */
  function Digest(m: string): (h: string)
    ensures '_' !in h && '\0' !in h
  {
    if m == "" then "" else HexChar(m[0]) + Digest(m[1..])
  }

  function Hex(n: nat, width: nat): (h: string)
    ensures |h| == width && '_' !in h && '\0' !in h
  {
    if width == 0 then "" else Hex(n / 16, width - 1) + [HexDigit(n % 16)]
  }

  function HexRange(width: nat): nat {
    if width == 0 then 1 else 16 * HexRange(width - 1)
  }

  lemma HexDigitInjective(n: nat, m: nat)
    requires n < 16 && m < 16 && HexDigit(n) == HexDigit(m)
    ensures n == m
  {
    var d := "0123456789abcdef";
    assert forall i, j :: 0 <= i < j < 16 ==> d[i] != d[j];
  }

  lemma {:induction false} HexInjective(n: nat, m: nat, width: nat)
    requires n < HexRange(width) && m < HexRange(width) && Hex(n, width) == Hex(m, width)
    ensures n == m
  {
    if width > 0 {
      var s, t := Hex(n / 16, width - 1), Hex(m / 16, width - 1);
      assert Hex(n, width)[..width-1] == s && Hex(m, width)[..width-1] == t;
      assert Hex(n, width)[width-1] == Hex(m, width)[width-1];
      HexDigitInjective(n % 16, m % 16);
      HexInjective(n / 16, m / 16, width - 1);
    }
  }

  /** Six digits cover every character, so the rendering is fixed-width. */
  function HexChar(c: char): (h: string)
    ensures |h| == 6 && '_' !in h && '\0' !in h
  {
    Hex(c as int, 6)
  }

  lemma HexCharInjective(c: char, d: char)
    requires HexChar(c) == HexChar(d)
    ensures c == d
  {
    assert HexRange(3) == 0x1000;
    assert HexRange(5) == 0x10_0000;
    HexInjective(c as int, d as int, 6);
  }

  lemma {:induction false} DigestInjective(a: string, b: string)
    requires Digest(a) == Digest(b)
    ensures a == b
  {
    if a == "" || b == "" {
    } else {
      assert Digest(a)[..6] == HexChar(a[0]) && Digest(b)[..6] == HexChar(b[0]);
      assert Digest(a)[6..] == Digest(a[1..]) && Digest(b)[6..] == Digest(b[1..]);
      HexCharInjective(a[0], b[0]);
      DigestInjective(a[1..], b[1..]);
      assert a == [a[0]] + a[1..] && b == [b[0]] + b[1..];
    }
  }

  function StableIndexID(prefix: string, components: seq<string>): string {
    prefix + "_" + Digest(DOMAIN + prefix + Frames(components))
  }

  /** The code's loop: one digest fed header, prefix and framed components. */
  method ComputeStableIndexID(prefix: string, components: seq<string>) returns (id: string)
    ensures id == StableIndexID(prefix, components)
  {
    var fed := DOMAIN + prefix;
    for i := 0 to |components|
      invariant fed + Frames(components[i..]) == DOMAIN + prefix + Frames(components)
    {
      assert components[i..][0] == components[i] && components[i..][1..] == components[i+1..];
      fed := fed + Size(|components[i]|) + components[i];
    }
    assert components[|components|..] == [];
    assert fed + "" == fed;
    id := prefix + "_" + Digest(fed);
  }

  /** The prefix is not framed, yet it cannot be confused with the digest:
      digests contain no underscore. */
  lemma PrefixRecovered(p: string, q: string, h: string, k: string)
    requires p + "_" + h == q + "_" + k
    requires '_' !in h && '_' !in k
    ensures p == q && h == k
  {
    var s, t := p + "_" + h, q + "_" + k;
    assert s[|p|] == '_' && t[|q|] == '_';
    assert forall i :: |p| < i < |s| ==> s[i] == h[i - |p| - 1];
    assert forall i :: |q| < i < |t| ==> t[i] == k[i - |q| - 1];
    assert |p| == |q|;
    assert s[..|p|] == p && t[..|q|] == q;
    assert s[|p|+1..] == h && t[|q|+1..] == k;
  }

  /** Two identifiers coincide exactly when kind and components coincide. */
  lemma StableIndexIDInjective(p: string, a: seq<string>, q: string, b: seq<string>)
    ensures StableIndexID(p, a) == StableIndexID(q, b) <==> p == q && a == b
  {
    if StableIndexID(p, a) == StableIndexID(q, b) {
      var m, n := DOMAIN + p + Frames(a), DOMAIN + q + Frames(b);
      PrefixRecovered(p, q, Digest(m), Digest(n));
      DigestInjective(m, n);
      assert m[|DOMAIN + p|..] == Frames(a) && n[|DOMAIN + q|..] == Frames(b);
      FramesInjective(a, b);
    }
  }
}
