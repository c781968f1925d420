/** What the byte tables of `Bytes` mean in terms of characters: `Decode`, `Lossy` and the
    trimming functions against UTF-8 encoding and the White_Space property (Unicode 15,
    sections 3.9 and 4.6). */
module Unicode {
  import opened Bytes

  // ---------- UTF-8 ----------

  function Encode(c: char): (e: Text)
    ensures 1 <= |e| <= 4
  {
    var n := c as int;
    if n < 0x80 then [n as Byte]
    else if n < 0x800 then [(0xc0 + n / 0x40) as Byte, (0x80 + n % 0x40) as Byte]
    else if n < 0x10000 then [(0xe0 + n / 0x1000) as Byte, (0x80 + n / 0x40 % 0x40) as Byte, (0x80 + n % 0x40) as Byte]
    else [(0xf0 + n / 0x40000) as Byte, (0x80 + n / 0x1000 % 0x40) as Byte,
          (0x80 + n / 0x40 % 0x40) as Byte, (0x80 + n % 0x40) as Byte]
  }

  lemma ShortEncodeDecodes(c: char)
    requires c as int < 0x800
    ensures Decode(Encode(c)) == Good(|Encode(c)|)
  {
  }

  lemma WideEncodeDecodes(c: char)
    requires 0x800 <= c as int < 0x10000
    ensures Decode(Encode(c)) == Good(|Encode(c)|)
  {
    var n := c as int;
    assert n / 0x40 == n / 0x1000 * 0x40 + n / 0x40 % 0x40;
    assert n / 0x1000 == 0 ==> n / 0x40 % 0x40 >= 0x20;
    assert n / 0x1000 == 13 ==> n / 0x40 % 0x40 < 0x20;
  }

  lemma LongEncodeDecodes(c: char)
    requires c as int >= 0x10000
    ensures Decode(Encode(c)) == Good(|Encode(c)|)
  {
    var n := c as int;
    assert n / 0x1000 == n / 0x40000 * 0x40 + n / 0x1000 % 0x40;
    assert n / 0x40000 == 0 ==> n / 0x1000 % 0x40 >= 0x10;
    assert n / 0x40000 == 4 ==> n / 0x1000 % 0x40 < 0x10;
  }

  lemma EncodeDecodes(c: char)
    ensures Decode(Encode(c)) == Good(|Encode(c)|)
  {
    if c as int < 0x800 {
      ShortEncodeDecodes(c);
    } else if c as int < 0x10000 {
      WideEncodeDecodes(c);
    } else {
      LongEncodeDecodes(c);
    }
  }

  /** Every character is encoded as one well-formed character. */
  lemma EncodeIsWellFormed(c: char)
    ensures Decode(Encode(c)) == Good(|Encode(c)|)
    ensures Lossy(Encode(c)) == Encode(c)
  {
    EncodeDecodes(c);
    hide Encode, Decode;
    WellFormedCons(Encode(c), []);
    Unit(Encode(c));
    LossyKeepsWellFormed(Encode(c));
  }

  lemma TwoByteCharacter(a: Byte, b: Byte) returns (c: char)
    requires 0xc2 <= a <= 0xdf && Continues(b)
    ensures Encode(c) == [a, b]
  {
    var n := (a as int - 0xc0) * 0x40 + (b as int - 0x80);
    c := n as char;
  }

  lemma ThreeByteCharacter(a: Byte, b: Byte, d: Byte) returns (c: char)
    requires 0xe0 <= a <= 0xef && SecondOfThree(a, b) && Continues(d)
    ensures Encode(c) == [a, b, d]
  {
    var x, y, z := a as int - 0xe0, b as int - 0x80, d as int - 0x80;
    var n := x * 0x1000 + y * 0x40 + z;
    assert n / 0x1000 == x && n / 0x40 % 0x40 == y && n % 0x40 == z;
    assert 0x800 <= n < 0x10000 && (n < 0xd800 || 0xe000 <= n);
    c := n as char;
  }

  /** Four digits in base 64. */
  lemma FourDigits(w: nat, x: nat, y: nat, z: nat) returns (n: nat)
    requires x < 0x40 && y < 0x40 && z < 0x40
    ensures n == w * 0x40000 + x * 0x1000 + y * 0x40 + z
    ensures n / 0x40000 == w && n / 0x1000 % 0x40 == x && n / 0x40 % 0x40 == y && n % 0x40 == z
  {
    n := w * 0x40000 + x * 0x1000 + y * 0x40 + z;
    assert n / 0x40 == w * 0x1000 + x * 0x40 + y;
    assert n / 0x1000 == w * 0x40 + x;
  }

  lemma FourByteCharacter(a: Byte, b: Byte, d: Byte, e: Byte) returns (c: char)
    requires 0xf0 <= a <= 0xf4 && SecondOfFour(a, b) && Continues(d) && Continues(e)
    ensures Encode(c) == [a, b, d, e]
  {
    var w, x, y, z := a as int - 0xf0, b as int - 0x80, d as int - 0x80, e as int - 0x80;
    var n := FourDigits(w, x, y, z);
    assert 0x10000 <= n < 0x110000;
    c := n as char;
  }

  lemma GoodIsACharacter(s: Text) returns (c: char)
    requires s != [] && Decode(s).Good?
    ensures Encode(c) == s[..Decode(s).width]
  {
    var n := Decode(s).width;
    if n == 1 {
      c := s[0] as char;
      assert s[..1] == [s[0]];
    } else if n == 2 {
      c := TwoByteCharacter(s[0], s[1]);
      assert s[..2] == [s[0], s[1]];
    } else if n == 3 {
      c := ThreeByteCharacter(s[0], s[1], s[2]);
      assert s[..3] == [s[0], s[1], s[2]];
    } else {
      c := FourByteCharacter(s[0], s[1], s[2], s[3]);
      assert s[..4] == [s[0], s[1], s[2], s[3]];
    }
  }

  /** The front of a byte string is well formed exactly when it is some character's encoding. */
  lemma GoodExactlyCharacters(s: Text, c: char)
    requires s != []
    ensures Encode(c) <= s ==> Decode(s) == Good(|Encode(c)|)
    ensures Decode(s).Good? ==> exists d :: Encode(d) == s[..Decode(s).width]
  {
    EncodeDecodes(c);
    hide Encode;
    if Encode(c) <= s {
      DecodeIsLocal(Encode(c), s[|Encode(c)|..]);
      assert Encode(c)[..|Encode(c)|] == Encode(c);
      assert Encode(c) + s[|Encode(c)|..] == s;
    }
    if Decode(s).Good? {
      var d := GoodIsACharacter(s);
    }
  }

  /** `n` bytes that begin no further into any character than they do: the maximal subpart of
      an ill-formed sequence, or a single byte. */
  ghost predicate MaximalSubpart(s: Text, n: nat)
    requires 1 <= n <= |s|
  {
    && (n > 1 ==> exists c :: s[..n] < Encode(c))
    && (n < |s| ==> forall c :: !(s[..n + 1] <= Encode(c)))
  }

  lemma NoLongerPrefix(s: Text, n: nat, c: char)
    requires n < |s| && Decode(s) == Bad(n)
    ensures !(s[..n + 1] <= Encode(c))
  {
    EncodeDecodes(c);
    hide Encode;
    if s[..n + 1] <= Encode(c) {
      assert false;
    }
  }

  lemma SomeLonger(s: Text, n: nat)
    requires s != [] && Decode(s) == Bad(n) && n > 1
    ensures exists c :: s[..n] < Encode(c)
  {
    if n == 2 && s[0] < 0xf0 {
      var c := ThreeByteCharacter(s[0], s[1], 0x80);
      assert s[..2] < Encode(c);
    } else if n == 2 {
      var c := FourByteCharacter(s[0], s[1], 0x80, 0x80);
      assert s[..2] < Encode(c);
    } else {
      var c := FourByteCharacter(s[0], s[1], s[2], 0x80);
      assert s[..3] < Encode(c);
    }
  }

  /** Replacement decoding in terms of characters: a character in front is kept; where none is,
      a maximal subpart is replaced by U+FFFD. */
  lemma LossyReadsCharacters(s: Text, c: char)
    requires s != []
    ensures Encode(c) <= s ==> Lossy(s) == Encode(c) + Lossy(s[|Encode(c)|..])
    ensures (forall d :: !(Encode(d) <= s)) ==>
              exists n: nat :: 1 <= n <= |s| && MaximalSubpart(s, n) && Lossy(s) == [0xef, 0xbf, 0xbd] + Lossy(s[n..])
  {
    GoodExactlyCharacters(s, c);
    if Encode(c) <= s {
      assert s[..|Encode(c)|] == Encode(c);
    }
    if forall d :: !(Encode(d) <= s) {
      if Decode(s).Good? {
        var d := GoodIsACharacter(s);
        assert false;
      }
      var n := Decode(s).width;
      forall d | n < |s| ensures !(s[..n + 1] <= Encode(d)) {
        NoLongerPrefix(s, n, d);
      }
      if n > 1 {
        SomeLonger(s, n);
      }
      assert MaximalSubpart(s, n);
    }
  }

  // ---------- white space ----------

  /** The White_Space property. */
  predicate WhiteSpace(c: char) {
    var n := c as int;
    || 0x9 <= n <= 0xd || n == 0x20 || n == 0x85 || n == 0xa0 || n == 0x1680 || 0x2000 <= n <= 0x200a
    || n == 0x2028 || n == 0x2029 || n == 0x202f || n == 0x205f || n == 0x3000
  }

  /** Nothing but white space. */
  ghost predicate White(w: Text)
    decreases |w|
  {
    w == [] || exists c :: WhiteSpace(c) && Encode(c) <= w && White(w[|Encode(c)|..])
  }

  lemma SpaceFrontOfWhite(c: char, rest: Text)
    requires WhiteSpace(c)
    ensures SpaceFront(Encode(c) + rest) == |Encode(c)|
  {
  }

  lemma SpaceFrontIsWhite(s: Text) returns (c: char)
    requires SpaceFront(s) > 0
    ensures WhiteSpace(c) && Encode(c) == s[..SpaceFront(s)]
  {
    if SpaceFront(s) == 1 {
      c := s[0] as char;
      assert s[..1] == [s[0]];
    } else if SpaceFront(s) == 2 {
      c := TwoByteCharacter(s[0], s[1]);
      assert s[..2] == [s[0], s[1]];
    } else {
      c := ThreeByteCharacter(s[0], s[1], s[2]);
      assert s[..3] == [s[0], s[1], s[2]];
    }
  }

  lemma SpaceBackOfWhite(s: Text, c: char)
    requires WhiteSpace(c)
    ensures SpaceBack(s + Encode(c)) == |Encode(c)|
  {
  }

  lemma SpaceBackIsWhite(s: Text) returns (c: char)
    requires SpaceBack(s) > 0
    ensures WhiteSpace(c) && Encode(c) == s[|s| - SpaceBack(s)..]
  {
    var k := |s|;
    if SpaceBack(s) == 1 {
      c := s[k - 1] as char;
      assert s[k - 1..] == [s[k - 1]];
    } else if SpaceBack(s) == 2 {
      c := TwoByteCharacter(s[k - 2], s[k - 1]);
      assert s[k - 2..] == [s[k - 2], s[k - 1]];
    } else {
      c := ThreeByteCharacter(s[k - 3], s[k - 2], s[k - 1]);
      assert s[k - 3..] == [s[k - 3], s[k - 2], s[k - 1]];
    }
  }

  lemma WhiteOne(c: char)
    requires WhiteSpace(c)
    ensures White(Encode(c))
  {
    assert Encode(c)[|Encode(c)|..] == [];
  }

  lemma WhiteCons(c: char, w: Text)
    requires WhiteSpace(c) && White(w)
    ensures White(Encode(c) + w)
  {
    var e := Encode(c);
    assert e <= e + w && (e + w)[|e|..] == w;
  }

  lemma WhiteFirst(w: Text) returns (c: char, rest: Text)
    requires White(w) && w != []
    ensures WhiteSpace(c) && w == Encode(c) + rest && White(rest) && |rest| < |w|
  {
    hide Encode, WhiteSpace;
    c :| WhiteSpace(c) && Encode(c) <= w && White(w[|Encode(c)|..]);
    rest := w[|Encode(c)|..];
  }

  lemma {:induction false} WhiteConcat(a: Text, b: Text)
    requires White(a) && White(b)
    ensures White(a + b)
    decreases |a|
  {
    hide *;
    if a == [] {
      Unit(b);
    } else {
      var c, rest := WhiteFirst(a);
      WhiteConcat(rest, b);
      WhiteCons(c, rest + b);
      Assoc(Encode(c), rest, b);
    }
  }

  /** White space ends nowhere but at a character that is not white. */
  ghost predicate StartsDark(s: Text) { forall c :: WhiteSpace(c) ==> !(Encode(c) <= s) }

  ghost predicate EndsDark(s: Text) { forall c, k :: WhiteSpace(c) && 0 <= k <= |s| ==> s[k..] != Encode(c) }

  lemma DarkFront(s: Text)
    ensures StartsDark(s) <==> SpaceFront(s) == 0
  {
    if SpaceFront(s) > 0 {
      var c := SpaceFrontIsWhite(s);
      assert Encode(c) <= s;
    } else {
      forall c | WhiteSpace(c) ensures !(Encode(c) <= s) {
        if Encode(c) <= s {
          assert Encode(c) + s[|Encode(c)|..] == s;
          SpaceFrontOfWhite(c, s[|Encode(c)|..]);
        }
      }
    }
  }

  lemma DarkBack(s: Text)
    ensures EndsDark(s) <==> SpaceBack(s) == 0
  {
    if SpaceBack(s) > 0 {
      var c := SpaceBackIsWhite(s);
      assert s[|s| - SpaceBack(s)..] == Encode(c);
    } else {
      forall c, k | WhiteSpace(c) && 0 <= k <= |s| ensures s[k..] != Encode(c) {
        if s[k..] == Encode(c) {
          assert s[..k] + Encode(c) == s;
          SpaceBackOfWhite(s[..k], c);
        }
      }
    }
  }

  /** `trim_start` takes away white space and stops at the first character that is none. */
  lemma {:induction false} TrimStartSplits(s: Text) returns (k: nat)
    ensures k <= |s| && White(s[..k]) && TrimStart(s) == s[k..] && StartsDark(s[k..])
    decreases |s|
  {
    DarkFront(s);
    hide Encode, WhiteSpace, SpaceFront, StartsDark;
    var n := SpaceFront(s);
    if n == 0 {
      k := 0;
      assert s[..0] == [] && s[0..] == s;
    } else {
      var c := SpaceFrontIsWhite(s);
      var rest := TrimStartSplits(s[n..]);
      WhiteCons(c, s[n..][..rest]);
      hide White;
      k := n + rest;
      assert s[..k] == s[..n] + s[n..][..rest] && s[k..] == s[n..][rest..];
    }
  }

  lemma {:induction false} TrimEndSplits(s: Text) returns (k: nat)
    ensures k <= |s| && White(s[k..]) && TrimEnd(s) == s[..k] && EndsDark(s[..k])
    decreases |s|
  {
    DarkBack(s);
    hide Encode, WhiteSpace, SpaceBack, EndsDark;
    var n := SpaceBack(s);
    if n == 0 {
      k := |s|;
      assert s[..|s|] == s && s[|s|..] == [];
    } else {
      k := TrimEndSplits(s[..|s| - n]);
      hide White, TrimEnd;
      WhiteBehind(s, n, k);
    }
  }

  /** White space before the last white-space character goes on behind it. */
  lemma WhiteBehind(s: Text, n: nat, k: nat)
    requires 0 < n == SpaceBack(s) && n <= |s| && k <= |s| - n && White(s[..|s| - n][k..])
    ensures White(s[k..]) && s[..|s| - n][..k] == s[..k]
  {
    hide *;
    var c := SpaceBackIsWhite(s);
    var init := s[..|s| - n];
    WhiteOne(c);
    WhiteConcat(init[k..], Encode(c));
    assert s[k..] == init[k..] + Encode(c);
  }

  lemma {:induction false} TrimStartSkips(w: Text, rest: Text)
    requires White(w) && StartsDark(rest)
    ensures TrimStart(w + rest) == rest
    decreases |w|
  {
    if w == [] {
      DarkFront(rest);
      Unit(rest);
    } else {
      hide White, Encode, WhiteSpace, SpaceFront, StartsDark;
      var c, more := WhiteFirst(w);
      TrimStartSkips(more, rest);
      SpaceFrontOfWhite(c, more + rest);
      Assoc(Encode(c), more, rest);
      assert (Encode(c) + (more + rest))[|Encode(c)|..] == more + rest;
    }
  }

  /** `trim` takes away the white space at both ends, and no more. */
  lemma TrimSplits(s: Text) returns (i: nat, j: nat)
    ensures i <= j <= |s| && White(s[..i]) && White(s[j..]) && Trim(s) == s[i..j]
    ensures EndsDark(Trim(s))
    ensures StartsDark(s[i..])
  {
    hide White, TrimStart, TrimEnd, EndsDark, StartsDark;
    i := TrimStartSplits(s);
    var front := s[i..];
    var k := TrimEndSplits(front);
    j := i + k;
    assert front[k..] == s[j..] && front[..k] == s[i..j];
  }

  /** `p` stands in `s` after nothing but white space. */
  ghost predicate AfterWhite(s: Text, p: Text) {
    exists k: nat :: k <= |s| && White(s[..k]) && p <= s[k..]
  }

  lemma AsciiIsDark(s: Text, p: Text)
    requires p != [] && 0x21 <= p[0] <= 0x7e && p <= s
    ensures StartsDark(s)
  {
    DarkFront(s);
    hide StartsDark;
    assert s[0] == p[0];
  }

  /** Nothing that begins with `p` begins with white space. */
  ghost predicate Dark(p: Text) { p != [] && forall t: Text :: p <= t ==> StartsDark(t) }

  /** Looking for such a text after trimming is looking for it after white space. */
  lemma DarkFoundAfterWhite(s: Text, p: Text)
    requires Dark(p)
    ensures p <= TrimStart(s) <==> AfterWhite(s, p)
  {
    hide White, TrimStart, StartsDark;
    if p <= TrimStart(s) {
      var k := TrimStartSplits(s);
      assert k <= |s| && White(s[..k]) && p <= s[k..];
    }
    if AfterWhite(s, p) {
      var k: nat :| k <= |s| && White(s[..k]) && p <= s[k..];
      TrimStartSkips(s[..k], s[k..]);
      assert s[..k] + s[k..] == s;
    }
  }

  /** Printable ASCII is such a text. */
  lemma FoundAfterWhite(s: Text, p: Text)
    requires p != [] && 0x21 <= p[0] <= 0x7e
    ensures p <= TrimStart(s) <==> AfterWhite(s, p)
  {
    hide White, TrimStart, StartsDark;
    forall t: Text | p <= t ensures StartsDark(t) {
      AsciiIsDark(t, p);
    }
    DarkFoundAfterWhite(s, p);
  }

  /** What trims to nothing is exactly white space. */
  lemma BlankIsWhite(s: Text)
    ensures Trim(s) == [] <==> White(s)
  {
    hide White, TrimStart, EndsDark;
    if Trim(s) == [] {
      var i, j := TrimSplits(s);
      WhiteConcat(s[..i], s[i..]);
      assert s[..i] + s[i..] == s;
    }
    if White(s) {
      assert StartsDark([]);
      TrimStartSkips(s, []);
      Unit(s);
    }
  }
}
