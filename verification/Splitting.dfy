/** Splitting bytes at a separator. */
module Splitting {
  import opened Bytes

  /** The pieces ended by a separator, and the piece after the last one. */
  datatype Pieces = Pieces(ended: seq<Text>, tail: Text)

  function Split(sep: Byte, s: Text): Pieces {
    if s == [] then Pieces([], []) else
    var p := Split(sep, s[..|s| - 1]);
    var b := s[|s| - 1];
    if b == sep then Pieces(p.ended + [p.tail], []) else Pieces(p.ended, p.tail + [b])
  }

  lemma SplitSnoc(sep: Byte, s: Text, b: Byte)
    ensures var p := Split(sep, s);
            Split(sep, s + [b]) == if b == sep then Pieces(p.ended + [p.tail], []) else Pieces(p.ended, p.tail + [b])
  {
    assert (s + [b])[..|s|] == s;
  }

  lemma {:induction false} SplitAround(sep: Byte, a: Text, b: Text)
    ensures var p := Split(sep, a); var q := Split(sep, b);
            Split(sep, a + [sep] + b) == Pieces(p.ended + [p.tail] + q.ended, q.tail)
    decreases |b|
  {
    if b == [] {
      assert a + [sep] + b == a + [sep];
      SplitSnoc(sep, a, sep);
      var p := Split(sep, a);
      assert p.ended + [p.tail] + [] == p.ended + [p.tail];
    } else {
      var init, last := b[..|b| - 1], b[|b| - 1];
      assert b == init + [last];
      assert a + [sep] + b == (a + [sep] + init) + [last];
      SplitAround(sep, a, init);
      SplitSnoc(sep, a + [sep] + init, last);
      var p, q := Split(sep, a), Split(sep, init);
      assert p.ended + [p.tail] + (q.ended + [q.tail]) == (p.ended + [p.tail] + q.ended) + [q.tail];
    }
  }

  lemma {:induction false} SplitUnbroken(sep: Byte, s: Text)
    requires forall i :: 0 <= i < |s| ==> s[i] != sep
    ensures Split(sep, s) == Pieces([], s)
  {
    if s != [] {
      SplitUnbroken(sep, s[..|s| - 1]);
      assert s[..|s| - 1] + [s[|s| - 1]] == s;
    }
  }

  ghost predicate Unbroken(sep: Byte, s: Text) { forall i :: 0 <= i < |s| ==> s[i] != sep }

  function Rejoin(sep: Byte, pieces: seq<Text>): Text {
    if pieces == [] then [] else
    Rejoin(sep, pieces[..|pieces| - 1]) + pieces[|pieces| - 1] + [sep]
  }

  /** The pieces, joined again, give the bytes back. */
  lemma {:induction false} SplitIsExact(sep: Byte, s: Text)
    ensures Rejoin(sep, Split(sep, s).ended) + Split(sep, s).tail == s
    decreases |s|
  {
    if s != [] {
      var init, b := s[..|s| - 1], s[|s| - 1];
      SplitIsExact(sep, init);
      var p := Split(sep, init);
      if b == sep {
        assert (p.ended + [p.tail])[..|p.ended|] == p.ended;
      } else {
        assert Rejoin(sep, p.ended) + (p.tail + [b]) == (Rejoin(sep, p.ended) + p.tail) + [b];
      }
    }
  }

  lemma RejoinSnocSplits(sep: Byte, s: Text, init: seq<Text>, last: Text)
    requires Split(sep, s) == Pieces(init, []) && Unbroken(sep, last)
    ensures Split(sep, s + last + [sep]) == Pieces(init + [last], [])
  {
    SplitUnbroken(sep, last);
    hide *;
    SplitResumes(sep, s, last);
    SplitSnoc(sep, s + last, sep);
    Unit(last);
    Unit(init);
  }

  /** Joined lines split into themselves. */
  lemma {:induction false} RejoinSplits(sep: Byte, lines: seq<Text>)
    requires forall i :: 0 <= i < |lines| ==> Unbroken(sep, lines[i])
    ensures Split(sep, Rejoin(sep, lines)) == Pieces(lines, [])
    decreases |lines|
  {
    if lines != [] {
      var init, last := lines[..|lines| - 1], lines[|lines| - 1];
      RejoinSplits(sep, init);
      RejoinSnocSplits(sep, Rejoin(sep, init), init, last);
      hide Split, Unbroken;
      assert init + [last] == lines;
    }
  }

  /** No piece holds a separator. */
  lemma {:induction false} PiecesUnbroken(sep: Byte, s: Text)
    ensures Unbroken(sep, Split(sep, s).tail)
    ensures forall i :: 0 <= i < |Split(sep, s).ended| ==> Unbroken(sep, Split(sep, s).ended[i])
    decreases |s|
  {
    if s != [] {
      PiecesUnbroken(sep, s[..|s| - 1]);
    }
  }

  /** Splitting can stop anywhere and go on with the unfinished piece. */
  lemma {:induction false} SplitResumes(sep: Byte, a: Text, b: Text)
    ensures var p := Split(sep, a); var q := Split(sep, p.tail + b);
            Split(sep, a + b) == Pieces(p.ended + q.ended, q.tail)
    decreases |b|
  {
    var p := Split(sep, a);
    if b == [] {
      PiecesUnbroken(sep, a);
      SplitUnbroken(sep, p.tail);
      assert a + b == a && p.tail + b == p.tail;
      assert p.ended + [] == p.ended;
    } else {
      var init, last := b[..|b| - 1], b[|b| - 1];
      assert a + b == (a + init) + [last] && p.tail + b == (p.tail + init) + [last];
      SplitResumes(sep, a, init);
      SplitSnoc(sep, a + init, last);
      SplitSnoc(sep, p.tail + init, last);
      var q := Split(sep, p.tail + init);
      assert p.ended + (q.ended + [q.tail]) == (p.ended + q.ended) + [q.tail];
    }
  }
}
