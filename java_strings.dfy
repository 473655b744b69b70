/**
 * The two java.lang.String operations the input parser relies on, for a
 * single-character pattern: `split` with its default limit, which drops
 * trailing empty strings, and `replaceFirst` with an empty replacement.
 */
module JavaStrings {

  /** Every piece between separators, empty ones included; the pieces joined back give the string. */
  function SplitAll(s: string, sep: char): (r: seq<string>)
    ensures |r| >= 1
  {
    if s == [] then [[]]
    else
      var rest := SplitAll(s[1..], sep);
      if s[0] == sep then [[]] + rest else [[s[0]] + rest[0]] + rest[1..]
  }

  /** The pieces with a separator between each two. */
  function Join(ps: seq<string>, sep: char): string
    requires |ps| >= 1
  {
    if |ps| == 1 then ps[0] else ps[0] + [sep] + Join(ps[1..], sep)
  }

  /** Splitting loses nothing: joining the pieces gives back the string, and no piece holds a separator. */
  lemma {:induction false} JoinSplitAll(s: string, sep: char)
    ensures Join(SplitAll(s, sep), sep) == s
    ensures forall p | p in SplitAll(s, sep) :: sep !in p
  {
    if s != [] {
      var rest := SplitAll(s[1..], sep);
      JoinSplitAll(s[1..], sep);
      if s[0] == sep {
        assert ([[]] + rest)[1..] == rest;
      } else {
        var r := [[s[0]] + rest[0]] + rest[1..];
        assert r[0] == [s[0]] + rest[0] && r[1..] == rest[1..];
        if |rest| > 1 {
          assert rest == [rest[0]] + rest[1..];
        }
        assert rest[0] in rest;
        forall p | p in r
          ensures sep !in p
        {
          if p != r[0] {
            var k :| 0 <= k < |r| && r[k] == p;
            assert rest[k] == p;
          }
        }
      }
    }
  }

  /** Splitting a join of separator-free pieces gives the pieces back. */
  lemma {:induction false} SplitAllJoin(ps: seq<string>, sep: char)
    requires |ps| >= 1 && forall p | p in ps :: sep !in p
    ensures SplitAll(Join(ps, sep), sep) == ps
  {
    if |ps| == 1 {
      SplitAllNoSeparator(ps[0], sep);
    } else {
      assert ps[1..][0] in ps;
      forall p | p in ps[1..] ensures sep !in p { assert p in ps; }
      SplitAllJoin(ps[1..], sep);
      SplitAllPrefix(ps[0], Join(ps[1..], sep), sep);
    }
  }

  lemma {:induction false} SplitAllNoSeparator(s: string, sep: char)
    requires sep !in s
    ensures SplitAll(s, sep) == [s]
  {
    if s != [] {
      assert sep !in s[1..] && s[0] != sep;
      SplitAllNoSeparator(s[1..], sep);
      assert [s[0]] + s[1..] == s;
    }
  }

  /** A separator-free head followed by a separator splits off as the first piece. */
  lemma {:induction false} SplitAllPrefix(head: string, tail: string, sep: char)
    requires sep !in head
    ensures SplitAll(head + [sep] + tail, sep) == [head] + SplitAll(tail, sep)
  {
    if head == [] {
      assert (head + [sep] + tail)[1..] == tail;
    } else {
      assert (head + [sep] + tail)[1..] == head[1..] + [sep] + tail;
      SplitAllPrefix(head[1..], tail, sep);
      assert [head[0]] + head[1..] == head;
    }
  }

  /** The last piece is empty exactly when the string is empty or ends with the separator. */
  lemma {:induction false} SplitAllLastPiece(s: string, sep: char)
    ensures var r := SplitAll(s, sep);
      r[|r| - 1] == [] <==> s == [] || s[|s| - 1] == sep
  {
    if s != [] {
      SplitAllLastPiece(s[1..], sep);
    }
  }

  /** The pieces without their trailing empty ones. */
  function DropTrailingEmpty(ps: seq<string>): (r: seq<string>)
    ensures |r| <= |ps| && r == ps[..|r|]
    ensures r != [] ==> r[|r| - 1] != []
    ensures forall i | |r| <= i < |ps| :: ps[i] == []
  {
    if ps == [] then []
    else if ps[|ps| - 1] == [] then DropTrailingEmpty(ps[..|ps| - 1])
    else ps
  }

  /**
   * `s.split(sep)`: the empty string gives one empty piece; otherwise every
   * piece, without the trailing empty ones (so a string of separators only
   * gives none).
   */
  function JavaSplit(s: string, sep: char): seq<string>
  {
    if s == [] then [[]] else DropTrailingEmpty(SplitAll(s, sep))
  }

  /** Leading and inner empty pieces are kept, so the pieces are a prefix of all pieces and none holds the separator. */
  lemma JavaSplitPieces(s: string, sep: char)
    ensures var r := JavaSplit(s, sep);
      && |r| <= |SplitAll(s, sep)| && r == SplitAll(s, sep)[..|r|]
      && forall p | p in r :: sep !in p
  {
    JoinSplitAll(s, sep);
    var r := JavaSplit(s, sep);
    forall p | p in r
      ensures sep !in p
    {
      var k :| 0 <= k < |r| && r[k] == p;
      assert SplitAll(s, sep)[k] == p;
    }
  }

  /** A non-empty string ending with the separator loses at least its last, empty, piece. */
  lemma JavaSplitDropsTrailingEmpty(s: string, sep: char)
    requires s != [] && s[|s| - 1] == sep
    ensures |JavaSplit(s, sep)| < |SplitAll(s, sep)|
  {
    SplitAllLastPiece(s, sep);
  }

  /** A non-empty string not ending with the separator keeps every piece. */
  lemma JavaSplitKeepsAll(s: string, sep: char)
    requires s != [] && s[|s| - 1] != sep
    ensures JavaSplit(s, sep) == SplitAll(s, sep)
  {
    SplitAllLastPiece(s, sep);
  }

  /** `s.replaceFirst(c, "")` for a one-character pattern. */
  function RemoveFirst(s: string, c: char): string
  {
    if s == [] then []
    else if s[0] == c then s[1..]
    else [s[0]] + RemoveFirst(s[1..], c)
  }

  /** The position of the first c in s. */
  function FirstIndex(s: string, c: char): (i: nat)
    requires c in s
    ensures i < |s| && s[i] == c && c !in s[..i]
  {
    if s[0] == c then 0
    else
      assert c in s[1..];
      var i := FirstIndex(s[1..], c);
      assert s[..i + 1] == [s[0]] + s[1..][..i];
      i + 1
  }

  /** RemoveFirst leaves a string without c as it is, and otherwise cuts out exactly the first c. */
  lemma {:induction false} RemoveFirstCutsFirst(s: string, c: char)
    ensures c !in s ==> RemoveFirst(s, c) == s
    ensures c in s ==> var i := FirstIndex(s, c); RemoveFirst(s, c) == s[..i] + s[i + 1..]
  {
    if s != [] && s[0] != c {
      RemoveFirstCutsFirst(s[1..], c);
      if c in s {
        var i := FirstIndex(s[1..], c);
        assert s[..i + 1] == [s[0]] + s[1..][..i];
        assert s[i + 2..] == s[1..][i + 1..];
      } else {
        assert s == [s[0]] + s[1..];
      }
    }
  }
}
