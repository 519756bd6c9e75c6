/**
 The escaper both canonical documents rest on (`domain/CanonicalJson.cpp`), and a reference
 reader of JSON strings (section 7 of RFC 8259) that undoes it.

 A `char` stands for one byte of a `std::string`.
 */
module CanonicalJson {
  import opened Common

  const BACKSPACE: char := '\U{0008}'
  const FORM_FEED: char := '\U{000C}'

  function Concat(pieces: seq<string>): string {
    if pieces == [] then "" else pieces[0] + Concat(pieces[1..])
  }

  lemma ConcatCons(piece: string, rest: seq<string>)
    ensures Concat([piece] + rest) == piece + Concat(rest)
  {
    assert ([piece] + rest)[1..] == rest;
  }

  lemma {:induction false} ConcatJoins(front: seq<string>, back: seq<string>)
    ensures Concat(front + back) == Concat(front) + Concat(back)
  {
    if front == [] {
      assert front + back == back;
    } else {
      assert (front + back)[1..] == front[1..] + back;
      ConcatJoins(front[1..], back);
    }
  }

  lemma {:induction false} ConcatSnoc(pieces: seq<string>, last: string)
    ensures Concat(pieces + [last]) == Concat(pieces) + last
  {
    if pieces == [] {
      assert pieces + [last] == [last] + [];
      ConcatCons(last, []);
    } else {
      assert (pieces + [last])[1..] == pieces[1..] + [last];
      ConcatSnoc(pieces[1..], last);
    }
  }

  /**
   The caller's `std::string& out`. `pieces` remembers how the text was put together, so that a
   document is specified by the list of its parts.
   */
  class StringBuffer {
    var text: string
    ghost var pieces: seq<string>

    ghost predicate Valid()
      reads this
    {
      text == Concat(pieces)
    }

    constructor ()
      ensures Valid() && pieces == []
    {
      text, pieces := "", [];
    }

    method Append(suffix: string)
      requires Valid()
      modifies this
      ensures Valid() && pieces == old(pieces) + [suffix] && text == old(text) + suffix
      ensures forall more {:trigger pieces + more} :: pieces + more == old(pieces) + ([suffix] + more)
    {
      ConcatSnoc(pieces, suffix);
      text, pieces := text + suffix, pieces + [suffix];
    }
  }

  function HexDigit(v: nat): char
    requires v < 16
  {
    "0123456789abcdef"[v]
  }

  predicate IsHexDigit(c: char) {
    '0' <= c <= '9' || 'a' <= c <= 'f' || 'A' <= c <= 'F'
  }

  function HexValue(c: char): (v: nat)
    requires IsHexDigit(c)
    ensures v < 16
  {
    if c <= '9' then c as int - '0' as int
    else if c <= 'F' then c as int - 'A' as int + 10
    else c as int - 'a' as int + 10
  }

  function Escaped(c: char): string {
    if c == '\"' then "\\\""
    else if c == '\\' then "\\\\"
    else if c == BACKSPACE then "\\b"
    else if c == FORM_FEED then "\\f"
    else if c == '\n' then "\\n"
    else if c == '\r' then "\\r"
    else if c == '\t' then "\\t"
    else if c < ' ' then "\\u00" + [HexDigit(c as int / 16), HexDigit(c as int % 16)]
    else [c]
  }

  function EscapedAll(value: string): string {
    if value == [] then [] else Escaped(value[0]) + EscapedAll(value[1..])
  }

  function Quoted(value: string): string {
    "\"" + (EscapedAll(value) + "\"")
  }

  lemma {:induction false} EscapedAllAppends(value: string, last: char)
    ensures EscapedAll(value + [last]) == EscapedAll(value) + Escaped(last)
  {
    if value == [] {
      assert value + [last] == [last];
      assert EscapedAll([last]) == Escaped(last) + EscapedAll([]);
    } else {
      assert (value + [last])[1..] == value[1..] + [last];
      EscapedAllAppends(value[1..], last);
    }
  }

  /** The text after `index` characters of `value` have been written behind `before`. */
  function Writing(before: string, value: string, index: nat): string
    requires index <= |value|
  {
    before + ("\"" + EscapedAll(value[..index]))
  }

  lemma WritingAdvances(before: string, value: string, index: nat)
    requires index < |value|
    ensures Writing(before, value, index) + Escaped(value[index]) == Writing(before, value, index + 1)
  {
    EscapedAllAppends(value[..index], value[index]);
    assert value[..index + 1] == value[..index] + [value[index]];
  }

  lemma WritingEnds(before: string, value: string)
    ensures Writing(before, value, |value|) + "\"" == before + Quoted(value)
  {
    assert value[..|value|] == value;
  }

  method AppendCanonicalJsonString(out: StringBuffer, value: string)
    requires out.Valid()
    modifies out
    ensures out.Valid() && out.pieces == old(out.pieces) + [Quoted(value)]
    ensures out.text == old(out.text) + Quoted(value)
    ensures forall more {:trigger out.pieces + more} :: out.pieces + more == old(out.pieces) + ([Quoted(value)] + more)
  {
    ghost var before, written := out.text, out.pieces;
    out.Append("\"");
    assert EscapedAll(value[..0]) == "";
    var index := 0;
    while index < |value|
      invariant index <= |value|
      invariant out.Valid()
      invariant out.text == Writing(before, value, index)
    {
      WritingAdvances(before, value, index);
      AppendEscaped(out, value[index]);
      index := index + 1;
    }
    WritingEnds(before, value);
    out.Append("\"");
    ConcatSnoc(written, Quoted(value));
    out.pieces := written + [Quoted(value)];
  }

  /** The `switch` of the loop. */
  method AppendEscaped(out: StringBuffer, character: char)
    requires out.Valid()
    modifies out
    ensures out.Valid() && out.text == old(out.text) + Escaped(character)
  {
    ConcatSnoc(out.pieces, Escaped(character));
    match character
    case '\"' => out.Append("\\\"");
    case '\\' => out.Append("\\\\");
    case '\n' => out.Append("\\n");
    case '\r' => out.Append("\\r");
    case '\t' => out.Append("\\t");
    case _ =>
      if character == BACKSPACE {
        out.Append("\\b");
      } else if character == FORM_FEED {
        out.Append("\\f");
      } else if character < ' ' {
        out.Append("\\u00" + [HexDigit(character as int / 16), HexDigit(character as int % 16)]);
      } else {
        out.Append([character]);
      }
  }

  /** What a two-character escape stands for. */
  function Unescaped(c: char): Option<char> {
    if c == '\"' || c == '\\' || c == '/' then Some(c)
    else if c == 'b' then Some(BACKSPACE)
    else if c == 'f' then Some(FORM_FEED)
    else if c == 'n' then Some('\n')
    else if c == 'r' then Some('\r')
    else if c == 't' then Some('\t')
    else None
  }

  /** One possibly escaped character. A raw control character is refused, and so is a surrogate escape. */
  function ReadCharacter(s: string): (r: Option<(char, string)>)
    ensures r.Some? ==> |r.value.1| < |s|
  {
    if s == [] || s[0] == '\"' || s[0] < ' ' then None
    else if s[0] != '\\' then Some((s[0], s[1..]))
    else if |s| >= 2 && s[1] != 'u' then
      match Unescaped(s[1])
      case Some(c) => Some((c, s[2..]))
      case None => None
    else if |s| >= 6 && IsHexDigit(s[2]) && IsHexDigit(s[3]) && IsHexDigit(s[4]) && IsHexDigit(s[5]) then
      var code := 4096 * HexValue(s[2]) + 256 * HexValue(s[3]) + 16 * HexValue(s[4]) + HexValue(s[5]);
      if 0xD800 <= code < 0xE000 then None else Some((code as char, s[6..]))
    else None
  }

  function ReadBody(s: string): (r: Option<(string, string)>)
    ensures r.Some? ==> |r.value.1| < |s|
    decreases |s|
  {
    if s != [] && s[0] == '\"' then Some(([], s[1..]))
    else
      var (c, rest) :- ReadCharacter(s);
      var (value, after) :- ReadBody(rest);
      Some(([c] + value, after))
  }

  function ReadString(s: string): (r: Option<(string, string)>)
    ensures r.Some? ==> |r.value.1| < |s|
  {
    if s == [] || s[0] != '\"' then None else ReadBody(s[1..])
  }

  lemma HexDigitsReadBack(v: nat)
    requires v < 16
    ensures IsHexDigit(HexDigit(v)) && HexValue(HexDigit(v)) == v
  {
    if v < 8 {
      if v < 4 {
        assert v == 0 || v == 1 || v == 2 || v == 3;
      } else {
        assert v == 4 || v == 5 || v == 6 || v == 7;
      }
    } else if v < 12 {
      assert v == 8 || v == 9 || v == 10 || v == 11;
    } else {
      assert v == 12 || v == 13 || v == 14 || v == 15;
    }
  }

  /** A byte's escape is never a closing quote and reads back as that byte. */
  lemma ReadCharacterUndoesEscaped(c: char, rest: string)
    ensures ReadCharacter(Escaped(c) + rest) == Some((c, rest))
    ensures (Escaped(c) + rest)[0] != '\"'
  {
    var s := Escaped(c) + rest;
    if |Escaped(c)| == 1 {
      assert s[1..] == rest;
    } else if |Escaped(c)| == 2 {
      assert s[2..] == rest;
    } else {
      HexDigitsReadBack(c as int / 16);
      HexDigitsReadBack(c as int % 16);
      assert s[6..] == rest;
      assert HexValue('0') == 0;
    }
  }

  lemma {:induction false} ReadBodyUndoesEscapedAll(value: string, rest: string)
    ensures ReadBody(EscapedAll(value) + ("\"" + rest)) == Some((value, rest))
  {
    var closing := "\"" + rest;
    if value == [] {
      assert EscapedAll(value) + closing == closing;
      assert closing[1..] == rest;
    } else {
      var more := EscapedAll(value[1..]) + closing;
      assert EscapedAll(value) + closing == Escaped(value[0]) + more;
      ReadCharacterUndoesEscaped(value[0], more);
      ReadBodyUndoesEscapedAll(value[1..], rest);
      assert [value[0]] + value[1..] == value;
    }
  }

  lemma ReadStringUndoesQuoted(value: string, rest: string)
    ensures ReadString(Quoted(value) + rest) == Some((value, rest))
  {
    ReadBodyUndoesEscapedAll(value, rest);
    assert (Quoted(value) + rest)[1..] == EscapedAll(value) + ("\"" + rest);
  }
}
