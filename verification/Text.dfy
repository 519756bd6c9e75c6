/** The `std::string_view` searches the parsers are written with. */
module Text {
  import opened Common

  const NPOS: int := -1

  predicate IsLetter(c: char) {
    'a' <= c <= 'z' || 'A' <= c <= 'Z'
  }

  /** `find(c, start)`: the first position at or after `start` that holds `c`. */
  function Find(s: string, c: char, start: nat): (found: int)
    requires start <= |s|
    ensures found == NPOS || (start <= found < |s| && s[found] == c)
    ensures forall i :: start <= i < (if found == NPOS then |s| else found) ==> s[i] != c
    decreases |s| - start
  {
    if start == |s| then NPOS else if s[start] == c then start else Find(s, c, start + 1)
  }

  /** The pieces between separators; always one more than there are separators. */
  function Split(s: string, c: char): (pieces: seq<string>)
    ensures pieces != []
  {
    var found := Find(s, c, 0);
    if found == NPOS then [s] else [s[..found]] + Split(s[found + 1..], c)
  }

  lemma {:induction false} FindInSuffix(s: string, c: char, start: nat, from: nat)
    requires start + from <= |s|
    ensures Find(s[start..], c, from) == if Find(s, c, start + from) == NPOS then NPOS
                                         else Find(s, c, start + from) - start
    decreases |s| - from
  {
    if start + from < |s| && s[start + from] != c {
      FindInSuffix(s, c, start, from + 1);
    }
  }

  lemma SliceOfSuffix(s: string, start: nat, at: nat)
    requires start + at <= |s|
    ensures s[start..][..at] == s[start..start + at]
    ensures s[start..][at..] == s[start + at..]
  {
  }

  lemma SplitOnce(s: string, c: char, found: int)
    requires found == Find(s, c, 0)
    ensures Split(s, c) == if found == NPOS then [s] else [s[..found]] + Split(s[found + 1..], c)
  {
  }

  /** One turn of a loop that walks the pieces with `find`. */
  lemma SplitAtFound(s: string, c: char, start: nat, found: int)
    requires start <= |s| && found == Find(s, c, start)
    ensures Split(s[start..], c) == if found == NPOS then [s[start..]]
                                    else [s[start..found]] + Split(s[found + 1..], c)
  {
    hide Find, Split;
    var at := Find(s[start..], c, 0);
    FindInSuffix(s, c, start, 0);
    SplitOnce(s[start..], c, at);
    if found != NPOS {
      SliceOfSuffix(s, start, at);
      SliceOfSuffix(s, start, at + 1);
    }
  }

  lemma SplitFirst(s: string, c: char)
    requires s != [] && s[0] == c
    ensures Split(s, c)[0] == ""
  {
    assert Find(s, c, 0) == 0;
  }

  lemma {:induction false} FindPastPrefix(prefix: string, c: char, rest: string, from: nat)
    requires c !in prefix && from <= |prefix|
    ensures Find(prefix + ([c] + rest), c, from) == |prefix|
    ensures Find(prefix, c, from) == NPOS
    decreases |prefix| - from
  {
    if from < |prefix| {
      FindPastPrefix(prefix, c, rest, from + 1);
    }
  }

  lemma SplitAlone(piece: string, c: char)
    requires c !in piece
    ensures Split(piece, c) == [piece]
  {
    hide Find, Split;
    FindPastPrefix(piece, c, "", 0);
    SplitOnce(piece, c, NPOS);
  }

  /** A piece without the separator comes off the front. */
  lemma SplitOff(s: string, piece: string, c: char, rest: string)
    requires c !in piece && s == piece + ([c] + rest)
    ensures Split(s, c) == [piece] + Split(rest, c)
  {
    hide Find, Split;
    FindPastPrefix(piece, c, rest, 0);
    SplitOnce(s, c, |piece|);
    assert s[..|piece|] == piece;
    assert s[|piece| + 1..] == rest;
  }

  /** Splitting at one separator and splitting both sides is splitting the whole. */
  lemma {:induction false} SplitJoins(left: string, c: char, right: string)
    ensures Split(left + ([c] + right), c) == Split(left, c) + Split(right, c)
    decreases |left|
  {
    hide Find, Split;
    var found := Find(left, c, 0);
    if found == NPOS {
      assert c !in left;
      SplitAlone(left, c);
      SplitOff(left + ([c] + right), left, c, right);
    } else {
      var piece, rest := left[..found], left[found + 1..];
      assert left == piece + ([c] + rest);
      assert left + ([c] + right) == piece + ([c] + (rest + ([c] + right)));
      SplitOff(left, piece, c, rest);
      SplitOff(left + ([c] + right), piece, c, rest + ([c] + right));
      SplitJoins(rest, c, right);
      assert [piece] + (Split(rest, c) + Split(right, c)) == ([piece] + Split(rest, c)) + Split(right, c);
    }
  }

  /** `rfind(c, end - 1)`: the last position before `end` that holds `c`. */
  function RFind(s: string, c: char, end: nat): (found: int)
    requires end <= |s|
    ensures found == NPOS || (0 <= found < end && s[found] == c)
    ensures forall i :: (if found == NPOS then 0 else found + 1) <= i < end ==> s[i] != c
  {
    if end == 0 then NPOS else if s[end - 1] == c then end - 1 else RFind(s, c, end - 1)
  }

  /** One turn of a loop that walks the pieces backwards with `rfind`. */
  lemma SplitAtLast(s: string, c: char, end: nat, found: int)
    requires end <= |s| && found == RFind(s, c, end)
    ensures Split(s[..end], c) == if found == NPOS then [s[..end]] else Split(s[..found], c) + [s[found + 1..end]]
  {
    hide Split, RFind;
    if found == NPOS {
      SplitAlone(s[..end], c);
    } else {
      var last := s[found + 1..end];
      assert c !in last;
      SplitAlone(last, c);
      SplitJoins(s[..found], c, last);
      assert s[..end] == s[..found] + ([c] + last);
    }
  }

  lemma TrimKeeps(s: string)
    requires s != "" && !IsSpace(s[0]) && !IsSpace(s[|s| - 1])
    ensures Trim(s) == s
  {
  }

  /** The input after a literal it has to begin with. */
  function Skip(literal: string, s: string): (r: Option<string>)
    ensures r.Some? && literal != "" ==> |r.value| < |s|
  {
    if |literal| <= |s| && s[..|literal|] == literal then Some(s[|literal|..]) else None
  }

  lemma SkipUndoesAppend(literal: string, rest: string)
    ensures Skip(literal, literal + rest) == Some(rest)
  {
    assert (literal + rest)[..|literal|] == literal;
    assert (literal + rest)[|literal|..] == rest;
  }

  /** `std::isspace` in the C locale. */
  predicate IsSpace(c: char) {
    c == ' ' || '\t' <= c <= '\r'
  }

  /** `domain::trim`. */
  function Trim(s: string): (trimmed: string)
    ensures trimmed == "" || (!IsSpace(trimmed[0]) && !IsSpace(trimmed[|trimmed| - 1]))
  {
    if s == "" then ""
    else if IsSpace(s[0]) then Trim(s[1..])
    else if IsSpace(s[|s| - 1]) then Trim(s[..|s| - 1])
    else s
  }
}
