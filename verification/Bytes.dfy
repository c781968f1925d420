/** Bytes and text. A Rust `String` is its UTF-8 bytes, so `Text` is a byte sequence.
    The library calls the core relies on (`from_utf8_lossy`, `trim_start`, `trim`)
    are defined here outright, over bytes. */
module Bytes {
  newtype Byte = b: int | 0 <= b < 256
  type Text = seq<Byte>

  datatype Option<+T> = None | Some(value: T)

  const BS: Byte := 0x08
  const TAB: Byte := 0x09
  const LF: Byte := 0x0a
  const CR: Byte := 0x0d
  const ESC: Byte := 0x1b
  const BEL: Byte := 0x07
  const SPACE: Byte := 0x20

  /** An ASCII string's bytes. */
  function Ascii(s: string): Text
    requires forall i :: 0 <= i < |s| ==> s[i] < 128 as char
  {
    seq(|s|, i requires 0 <= i < |s| => s[i] as Byte)
  }

  // ---------- UTF-8 decoding with replacement ----------

  /** What stands at the front of a byte string: one well-formed character of `width`
      bytes, or an ill-formed part of `width` bytes (Unicode 15, section 3.9, table 3-7;
      an ill-formed part is a maximal subpart). */
  datatype Front = Good(width: nat) | Bad(width: nat)

  predicate Continues(b: Byte) { 0x80 <= b <= 0xbf }

  predicate SecondOfThree(a: Byte, b: Byte) {
    || (a == 0xe0 && 0xa0 <= b <= 0xbf)
    || (a == 0xed && 0x80 <= b <= 0x9f)
    || (a != 0xe0 && a != 0xed && Continues(b))
  }

  predicate SecondOfFour(a: Byte, b: Byte) {
    || (a == 0xf0 && 0x90 <= b <= 0xbf)
    || (a == 0xf4 && 0x80 <= b <= 0x8f)
    || (a != 0xf0 && a != 0xf4 && Continues(b))
  }

  function Decode(s: Text): (f: Front)
    requires s != []
    ensures 1 <= f.width <= |s|
    ensures f.width > 1 ==> s[0] >= 0x80
  {
    var a := s[0];
    if a < 0x80 then Good(1)
    else if 0xc2 <= a <= 0xdf then
      if |s| > 1 && Continues(s[1]) then Good(2) else Bad(1)
    else if 0xe0 <= a <= 0xef then
      if |s| < 2 || !SecondOfThree(a, s[1]) then Bad(1)
      else if |s| < 3 || !Continues(s[2]) then Bad(2)
      else Good(3)
    else if 0xf0 <= a <= 0xf4 then
      if |s| < 2 || !SecondOfFour(a, s[1]) then Bad(1)
      else if |s| < 3 || !Continues(s[2]) then Bad(2)
      else if |s| < 4 || !Continues(s[3]) then Bad(3)
      else Good(4)
    else Bad(1)
  }

  const REPLACEMENT: Text := [0xef, 0xbf, 0xbd]

  /** `String::from_utf8_lossy`. */
  function Lossy(s: Text): Text {
    if s == [] then [] else
    match Decode(s)
    case Good(n) => s[..n] + Lossy(s[n..])
    case Bad(n) => REPLACEMENT + Lossy(s[n..])
  }

  predicate WellFormed(s: Text) {
    s == [] || (Decode(s).Good? && WellFormed(s[Decode(s).width..]))
  }

  lemma DecodeIsLocal(s: Text, rest: Text)
    requires s != [] && Decode(s).Good?
    ensures Decode(s[..Decode(s).width] + rest) == Decode(s)
  {
  }

  lemma WellFormedCons(c: Text, rest: Text)
    requires c != [] && Decode(c) == Good(|c|) && WellFormed(rest)
    ensures WellFormed(c + rest)
  {
    DecodeIsLocal(c, rest);
    assert c[..|c|] == c;
    assert (c + rest)[|c|..] == rest;
  }

  lemma {:induction false} LossyWellFormed(s: Text)
    ensures WellFormed(Lossy(s))
  {
    if s != [] {
      var n := Decode(s).width;
      LossyWellFormed(s[n..]);
      if Decode(s).Good? {
        DecodeIsLocal(s, []);
        assert s[..n] + [] == s[..n];
        WellFormedCons(s[..n], Lossy(s[n..]));
      } else {
        WellFormedCons(REPLACEMENT, Lossy(s[n..]));
      }
    }
  }

  lemma {:induction false} LossyKeepsWellFormed(s: Text)
    requires WellFormed(s)
    ensures Lossy(s) == s
  {
    if s != [] {
      LossyKeepsWellFormed(s[Decode(s).width..]);
    }
  }

  lemma LossyIdempotent(s: Text)
    ensures Lossy(Lossy(s)) == Lossy(s)
  {
    LossyWellFormed(s);
    LossyKeepsWellFormed(Lossy(s));
  }

  /** No C0 control byte: what the floor's line editor leaves in a line. */
  ghost predicate NoControls(s: Text) { forall i :: 0 <= i < |s| ==> s[i] >= 0x20 }

  lemma {:induction false} LossyNoControls(s: Text)
    requires NoControls(s)
    ensures NoControls(Lossy(s))
  {
    if s != [] {
      LossyNoControls(s[Decode(s).width..]);
    }
  }

  // ---------- Unicode white space ----------

  /** Length of the White_Space character at the front, 0 if there is none. */
  function SpaceFront(s: Text): (n: nat)
    ensures n <= |s|
  {
    if |s| >= 1 && (0x09 <= s[0] <= 0x0d || s[0] == 0x20) then 1
    else if |s| >= 2 && s[0] == 0xc2 && (s[1] == 0x85 || s[1] == 0xa0) then 2
    else if |s| >= 3 && IsWideSpace(s[0], s[1], s[2]) then 3
    else 0
  }

  predicate IsWideSpace(a: Byte, b: Byte, c: Byte) {
    || (a == 0xe1 && b == 0x9a && c == 0x80)
    || (a == 0xe2 && b == 0x80 && (0x80 <= c <= 0x8a || c == 0xa8 || c == 0xa9 || c == 0xaf))
    || (a == 0xe2 && b == 0x81 && c == 0x9f)
    || (a == 0xe3 && b == 0x80 && c == 0x80)
  }

  function SpaceBack(s: Text): (n: nat)
    ensures n <= |s|
  {
    var k := |s|;
    if k >= 1 && (0x09 <= s[k - 1] <= 0x0d || s[k - 1] == 0x20) then 1
    else if k >= 2 && s[k - 2] == 0xc2 && (s[k - 1] == 0x85 || s[k - 1] == 0xa0) then 2
    else if k >= 3 && IsWideSpace(s[k - 3], s[k - 2], s[k - 1]) then 3
    else 0
  }

  function TrimStart(s: Text): (r: Text)
    ensures |r| <= |s|
  {
    if SpaceFront(s) == 0 then s else TrimStart(s[SpaceFront(s)..])
  }

  function TrimEnd(s: Text): (r: Text)
    ensures |r| <= |s|
  {
    if SpaceBack(s) == 0 then s else TrimEnd(s[..|s| - SpaceBack(s)])
  }

  function Trim(s: Text): Text { TrimEnd(TrimStart(s)) }

  // ---------- sequences ----------

  lemma Assoc<T>(a: seq<T>, b: seq<T>, c: seq<T>)
    ensures (a + b) + c == a + (b + c)
  {
  }

  lemma Unit<T>(a: seq<T>)
    ensures a + [] == a && [] + a == a
  {
  }

  // ---------- byte chunks ----------

  function Concat(chunks: seq<Text>): Text {
    if chunks == [] then [] else chunks[0] + Concat(chunks[1..])
  }

  lemma {:induction false} ConcatSplit(chunks: seq<Text>, i: nat)
    requires i <= |chunks|
    ensures Concat(chunks) == Concat(chunks[..i]) + Concat(chunks[i..])
    decreases i
  {
    if i == 0 {
      assert chunks[0..] == chunks;
    } else {
      ConcatSplit(chunks[1..], i - 1);
      assert chunks[..i][1..] == chunks[1..][..i - 1] && chunks[1..][i - 1..] == chunks[i..];
    }
  }

  lemma ConcatSnoc(chunks: seq<Text>, i: nat)
    requires i < |chunks|
    ensures Concat(chunks[..i + 1]) == Concat(chunks[..i]) + chunks[i]
  {
    var upTo := chunks[..i + 1];
    ConcatSplit(upTo, i);
    assert upTo[..i] == chunks[..i] && upTo[i..] == [chunks[i]];
    assert [chunks[i]][1..] == [];
    assert chunks[i] + [] == chunks[i];
  }
}
