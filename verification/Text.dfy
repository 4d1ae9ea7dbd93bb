/**
  Literal search and replacement as strings.Count and strings.ReplaceAll perform them for a non-empty search text,
  and the byte order that sort uses. Go strings are byte strings.
 */
module Text {

  /** Non-overlapping occurrences, counted from the left. */
  function Count(s: string, p: string): nat
    requires p != []
    decreases |s|
  {
    if p <= s then 1 + Count(s[|p|..], p)
    else if s == [] then 0
    else Count(s[1..], p)
  }

  function Replace(s: string, p: string, r: string): string
    requires p != []
    decreases |s|
  {
    if p <= s then r + Replace(s[|p|..], p, r)
    else if s == [] then []
    else [s[0]] + Replace(s[1..], p, r)
  }

  predicate Contains(s: string, p: string) {
    exists i | 0 <= i <= |s| :: p <= s[i..]
  }

  // ---- pieces between occurrences ----

  function Pieces(s: string, p: string): (pieces: seq<string>)
    requires p != []
    ensures pieces != []
    decreases |s|
  {
    if p <= s then [[]] + Pieces(s[|p|..], p)
    else if s == [] then [[]]
    else var rest := Pieces(s[1..], p); [[s[0]] + rest[0]] + rest[1..]
  }

  function Join(pieces: seq<string>, sep: string): string
    requires pieces != []
  {
    if |pieces| == 1 then pieces[0] else pieces[0] + sep + Join(pieces[1..], sep)
  }

  lemma JoinPush(c: char, pieces: seq<string>, sep: string)
    requires pieces != []
    ensures Join([[c] + pieces[0]] + pieces[1..], sep) == [c] + Join(pieces, sep)
  {
    var longer := [[c] + pieces[0]] + pieces[1..];
    assert longer[1..] == pieces[1..];
    if |pieces| > 1 {
      assert [c] + pieces[0] + sep + Join(pieces[1..], sep) == [c] + (pieces[0] + sep + Join(pieces[1..], sep));
    }
  }

  lemma JoinCut(pieces: seq<string>, sep: string)
    requires pieces != []
    ensures Join([[]] + pieces, sep) == sep + Join(pieces, sep)
  {
    assert ([[]] + pieces)[1..] == pieces;
  }

  /**
    The text is its pieces joined by the search text, and the replacement is the same pieces joined by the new text.
   */
  lemma {:induction false} PiecesJoin(s: string, p: string, r: string)
    requires p != []
    ensures Join(Pieces(s, p), p) == s
    ensures Join(Pieces(s, p), r) == Replace(s, p, r)
    ensures |Pieces(s, p)| == Count(s, p) + 1
    decreases |s|
  {
    if p <= s {
      PiecesJoin(s[|p|..], p, r);
      JoinCut(Pieces(s[|p|..], p), p);
      JoinCut(Pieces(s[|p|..], p), r);
      assert s == p + s[|p|..];
    } else if s != [] {
      PiecesJoin(s[1..], p, r);
      JoinPush(s[0], Pieces(s[1..], p), p);
      JoinPush(s[0], Pieces(s[1..], p), r);
      assert s == [s[0]] + s[1..];
    }
  }

  lemma {:induction false} FirstPieceIsPrefix(s: string, p: string)
    requires p != []
    ensures Pieces(s, p)[0] <= s
    decreases |s|
  {
    if p <= s {
    } else if s != [] {
      FirstPieceIsPrefix(s[1..], p);
      assert s == [s[0]] + s[1..];
    }
  }

  lemma PushFree(c: char, t: string, p: string)
    requires p != [] && !Contains(t, p) && !(p <= [c] + t)
    ensures !Contains([c] + t, p)
  {
    forall i | 0 <= i <= |t| + 1 ensures !(p <= ([c] + t)[i..]) {
      if i > 0 { assert ([c] + t)[i..] == t[i - 1..]; } else { assert ([c] + t)[0..] == [c] + t; }
    }
  }

  /** No occurrence is left out: between two replaced occurrences there is none. */
  lemma {:induction false} PiecesFree(s: string, p: string, k: nat)
    requires p != [] && k < |Pieces(s, p)|
    ensures !Contains(Pieces(s, p)[k], p)
    decreases |s|
  {
    if p <= s {
      if k > 0 { PiecesFree(s[|p|..], p, k - 1); }
    } else if s != [] {
      var rest := Pieces(s[1..], p);
      PiecesFree(s[1..], p, k);
      if k == 0 {
        FirstPieceIsPrefix(s[1..], p);
        assert [s[0]] + rest[0] <= s;
        assert !(p <= [s[0]] + rest[0]);
        PushFree(s[0], rest[0], p);
      }
    }
  }

  lemma OneMore(n: int, d: int)
    ensures (1 + n) * d == d + n * d
  {}

  /** The length of a replacement follows from the count alone. */
  lemma {:induction false} ReplaceLength(s: string, p: string, r: string)
    requires p != []
    ensures |Replace(s, p, r)| == |s| + Count(s, p) * (|r| - |p|)
    decreases |s|
  {
    if p <= s {
      ReplaceLength(s[|p|..], p, r);
      OneMore(Count(s[|p|..], p), |r| - |p|);
    } else if s != [] {
      ReplaceLength(s[1..], p, r);
    }
  }

  lemma {:induction false} SameLengthDiffers(s: string, p: string, r: string)
    requires p != [] && p != r && |p| == |r| && Count(s, p) > 0
    ensures Replace(s, p, r) != s
    decreases |s|
  {
    if p <= s {
      assert (r + Replace(s[|p|..], p, r))[..|p|] == r && s[..|p|] == p;
    } else if s != [] {
      SameLengthDiffers(s[1..], p, r);
      assert ([s[0]] + Replace(s[1..], p, r))[1..] == Replace(s[1..], p, r);
    }
  }

  /** A replacement by another text changes every text that has an occurrence. */
  lemma ReplaceDiffers(s: string, p: string, r: string)
    requires p != [] && p != r && Count(s, p) > 0
    ensures Replace(s, p, r) != s
  {
    if |p| == |r| {
      SameLengthDiffers(s, p, r);
    } else {
      ReplaceLength(s, p, r);
      NonZero(Count(s, p), |r| - |p|);
    }
  }

  lemma NonZero(n: int, d: int)
    requires n > 0 && d != 0
    ensures n * d != 0
  {}

  // ---- byte order ----

  predicate Less(a: string, b: string) {
    b != [] && (a == [] || a[0] < b[0] || (a[0] == b[0] && Less(a[1..], b[1..])))
  }

  lemma {:induction false} LessTotal(a: string, b: string)
    ensures a == b || Less(a, b) || Less(b, a)
    ensures !(Less(a, b) && Less(b, a)) && !Less(a, a)
  {
    if a != [] && b != [] && a[0] == b[0] {
      LessTotal(a[1..], b[1..]);
      LessTotal(a[1..], a[1..]);
      assert a == [a[0]] + a[1..] && b == [b[0]] + b[1..];
    } else if a != [] {
      LessTotal(a[1..], a[1..]);
    }
  }

  lemma {:induction false} LessTransitive(a: string, b: string, c: string)
    requires Less(a, b) && Less(b, c)
    ensures Less(a, c)
  {
    if a != [] && a[0] == b[0] && b[0] == c[0] { LessTransitive(a[1..], b[1..], c[1..]); }
  }
}
