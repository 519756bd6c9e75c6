/**
 Unpadded base64url (`base64Url` of `storage/DownloadUrlSigner.cpp`; section 5 of RFC 4648), and a
 decoder that undoes it.
 */
module Base64 {
  import opened Common

  type Byte = value: nat | value < 256

  const UPPER_CASE := "ABCDEFGHIJKLMNOPQRSTUVWXYZ"
  const LOWER_CASE := "abcdefghijklmnopqrstuvwxyz"
  const DIGITS_AND_MARKS := "0123456789-_"
  const ALPHABET := UPPER_CASE + LOWER_CASE + DIGITS_AND_MARKS

  // ---------------------------------------------------------------------------
  // Letters
  // ---------------------------------------------------------------------------

  predicate InAlphabet(c: char) {
    'A' <= c <= 'Z' || 'a' <= c <= 'z' || '0' <= c <= '9' || c == '-' || c == '_'
  }

  function LetterValue(c: char): (value: Option<nat>)
    ensures value.Some? ==> value.value < 64
  {
    if 'A' <= c <= 'Z' then Some(c as int - 'A' as int)
    else if 'a' <= c <= 'z' then Some(c as int - 'a' as int + 26)
    else if '0' <= c <= '9' then Some(c as int - '0' as int + 52)
    else if c == '-' then Some(62)
    else if c == '_' then Some(63)
    else None
  }

  function Letter(value: nat): char
    requires value < 64
  {
    ALPHABET[value]
  }

  lemma UpperCaseInOrder(n: nat)
    requires n < 26
    ensures UPPER_CASE[n] as int == 'A' as int + n
  {
    if n < 13 {
      assert n == 0 || n == 1 || n == 2 || n == 3 || n == 4 || n == 5 || n == 6 || n == 7 || n == 8 || n == 9
          || n == 10 || n == 11 || n == 12;
    } else {
      assert n == 13 || n == 14 || n == 15 || n == 16 || n == 17 || n == 18 || n == 19 || n == 20 || n == 21
          || n == 22 || n == 23 || n == 24 || n == 25;
    }
  }

  lemma LowerCaseInOrder(n: nat)
    requires n < 26
    ensures LOWER_CASE[n] as int == 'a' as int + n
  {
    if n < 13 {
      assert n == 0 || n == 1 || n == 2 || n == 3 || n == 4 || n == 5 || n == 6 || n == 7 || n == 8 || n == 9
          || n == 10 || n == 11 || n == 12;
    } else {
      assert n == 13 || n == 14 || n == 15 || n == 16 || n == 17 || n == 18 || n == 19 || n == 20 || n == 21
          || n == 22 || n == 23 || n == 24 || n == 25;
    }
  }

  lemma LettersReadBack(n: nat)
    requires n < 64
    ensures InAlphabet(Letter(n)) && LetterValue(Letter(n)) == Some(n)
  {
    if n < 26 {
      UpperCaseInOrder(n);
    } else if n < 52 {
      LowerCaseInOrder(n - 26);
    } else {
      assert ALPHABET[n] == DIGITS_AND_MARKS[n - 52];
      assert n < 58 ==> n == 52 || n == 53 || n == 54 || n == 55 || n == 56 || n == 57;
      assert n >= 58 ==> n == 58 || n == 59 || n == 60 || n == 61 || n == 62 || n == 63;
    }
  }

  // ---------------------------------------------------------------------------
  // Groups
  // ---------------------------------------------------------------------------

  /** Six of the bits of a 24-bit group: the shifts and masks of unsigned numbers, as quotients and remainders. */
  function Sextet(triple: nat, shift: nat): (value: nat)
    requires shift == 0 || shift == 6 || shift == 12 || shift == 18
    ensures value < 64
  {
    match shift
    case 0 => triple % 64
    case 6 => triple / 64 % 64
    case 12 => triple / 4096 % 64
    case _ => triple / 262144 % 64
  }

  function Triple(a: Byte, b: Byte, c: Byte): nat {
    65536 * a + 256 * b + c
  }

  function Full(a: Byte, b: Byte, c: Byte): string {
    var t := Triple(a, b, c);
    [Letter(Sextet(t, 18)), Letter(Sextet(t, 12)), Letter(Sextet(t, 6)), Letter(Sextet(t, 0))]
  }

  /** The last one or two bytes, without padding. */
  function Tail(rest: seq<Byte>): string
    requires |rest| < 3
  {
    if rest == [] then ""
    else if |rest| == 1 then
      var t := Triple(rest[0], 0, 0);
      [Letter(Sextet(t, 18)), Letter(Sextet(t, 12))]
    else
      var t := Triple(rest[0], rest[1], 0);
      [Letter(Sextet(t, 18)), Letter(Sextet(t, 12)), Letter(Sextet(t, 6))]
  }

  function Encoded(data: seq<Byte>): string {
    if |data| < 3 then Tail(data) else Full(data[0], data[1], data[2]) + Encoded(data[3..])
  }

  /** The letters of the first `index` bytes, a multiple of three. */
  ghost function FullGroups(data: seq<Byte>, index: nat): string
    requires index <= |data| && index % 3 == 0
  {
    if index == 0 then "" else FullGroups(data, index - 3) + Full(data[index - 3], data[index - 2], data[index - 1])
  }

  lemma {:induction false} GroupsThenTheRest(data: seq<Byte>, index: nat)
    requires index <= |data| && index % 3 == 0
    ensures FullGroups(data, index) + Encoded(data[index..]) == Encoded(data)
  {
    hide Full, Tail;
    if index == 0 {
      assert data[0..] == data;
    } else {
      var rest := data[index - 3..];
      assert rest[3..] == data[index..] && rest[0] == data[index - 3] && rest[1] == data[index - 2] && rest[2] == data[index - 1];
      GroupsThenTheRest(data, index - 3);
    }
  }

  lemma RestIsTheTail(rest: seq<Byte>)
    requires |rest| < 3
    ensures Encoded(rest) == Tail(rest)
  {
  }

  method Base64Url(data: seq<Byte>) returns (encoded: string)
    ensures encoded == Encoded(data)
  {
    hide Sextet, Triple, Letter, Encoded;
    encoded := "";
    var index := 0;
    while index + 2 < |data|
      invariant 0 <= index <= |data| && index % 3 == 0
      invariant encoded == FullGroups(data, index)
    {
      var triple := Triple(data[index], data[index + 1], data[index + 2]);
      encoded := encoded + [Letter(Sextet(triple, 18)), Letter(Sextet(triple, 12)), Letter(Sextet(triple, 6)),
                            Letter(Sextet(triple, 0))];
      index := index + 3;
    }
    GroupsThenTheRest(data, index);
    RestIsTheTail(data[index..]);
    if index + 1 == |data| {
      var triple := Triple(data[index], 0, 0);
      encoded := encoded + [Letter(Sextet(triple, 18)), Letter(Sextet(triple, 12))];
    } else if index + 2 == |data| {
      var triple := Triple(data[index], data[index + 1], 0);
      encoded := encoded + [Letter(Sextet(triple, 18)), Letter(Sextet(triple, 12)), Letter(Sextet(triple, 6))];
    }
  }

  // ---------------------------------------------------------------------------
  // Decoding
  // ---------------------------------------------------------------------------

  function Joined(a: nat, b: nat, c: nat, d: nat): nat {
    262144 * a + 4096 * b + 64 * c + d
  }

  function ByteAt(triple: nat, shift: nat): Byte
    requires shift == 0 || shift == 8 || shift == 16
  {
    match shift
    case 0 => triple % 256
    case 8 => triple / 256 % 256
    case _ => triple / 65536 % 256
  }

  function DecodedTail(text: string): Option<seq<Byte>>
    requires |text| < 4
  {
    if text == "" then Some([])
    else if |text| == 1 then None
    else
      var a :- LetterValue(text[0]);
      var b :- LetterValue(text[1]);
      if |text| == 2 then Some([ByteAt(Joined(a, b, 0, 0), 16)])
      else
        var c :- LetterValue(text[2]);
        Some([ByteAt(Joined(a, b, c, 0), 16), ByteAt(Joined(a, b, c, 0), 8)])
  }

  function Decoded(text: string): Option<seq<Byte>> {
    if |text| < 4 then DecodedTail(text)
    else
      var a :- LetterValue(text[0]);
      var b :- LetterValue(text[1]);
      var c :- LetterValue(text[2]);
      var d :- LetterValue(text[3]);
      var rest :- Decoded(text[4..]);
      var t := Joined(a, b, c, d);
      Some([ByteAt(t, 16), ByteAt(t, 8), ByteAt(t, 0)] + rest)
  }

  lemma SplitSixBits(n: nat)
    ensures n == 64 * (n / 64) + n % 64
  {
  }

  lemma QuotientsCompose(n: nat)
    ensures n / 64 / 64 == n / 4096
  {
  }

  lemma SextetsJoin(triple: nat)
    requires triple < 16777216
    ensures Joined(Sextet(triple, 18), Sextet(triple, 12), Sextet(triple, 6), Sextet(triple, 0)) == triple
  {
    var once := triple / 64;
    var twice := once / 64;
    var thrice := twice / 64;
    SplitSixBits(triple);
    SplitSixBits(once);
    SplitSixBits(twice);
    QuotientsCompose(triple);
    QuotientsCompose(once);
    ThirdQuotient(triple);
    assert thrice < 64 && thrice % 64 == thrice;
  }

  lemma ThirdQuotient(n: nat)
    ensures n / 262144 == n / 64 / 4096
  {
  }

  lemma SextetsJoinBack(a: Byte, b: Byte, c: Byte)
    ensures var t := Triple(a, b, c);
            Joined(Sextet(t, 18), Sextet(t, 12), Sextet(t, 6), Sextet(t, 0)) == t
    ensures c == 0 ==> Sextet(Triple(a, b, c), 0) == 0
    ensures b == 0 && c == 0 ==> Sextet(Triple(a, b, c), 6) == 0
  {
    hide Sextet, Joined;
    SextetsJoin(Triple(a, b, c));
    if c == 0 {
      LowSextetsVanish(a, b);
    }
  }

  lemma LowSextetsVanish(a: Byte, b: Byte)
    ensures Sextet(Triple(a, b, 0), 0) == 0
    ensures b == 0 ==> Sextet(Triple(a, b, 0), 6) == 0
  {
    assert Triple(a, b, 0) == 64 * (1024 * a + 4 * b);
  }

  lemma BytesComeBack(a: Byte, b: Byte, c: Byte)
    ensures var t := Triple(a, b, c); ByteAt(t, 16) == a && ByteAt(t, 8) == b && ByteAt(t, 0) == c
  {
  }

  lemma FullReadsBack(a: Byte, b: Byte, c: Byte, rest: string)
    requires Decoded(rest).Some?
    ensures Decoded(Full(a, b, c) + rest) == Some([a, b, c] + Decoded(rest).value)
  {
    hide Letter, LetterValue, Triple, Sextet, Joined, ByteAt;
    var t := Triple(a, b, c);
    LettersReadBack(Sextet(t, 18));
    LettersReadBack(Sextet(t, 12));
    LettersReadBack(Sextet(t, 6));
    LettersReadBack(Sextet(t, 0));
    SextetsJoinBack(a, b, c);
    BytesComeBack(a, b, c);
    assert (Full(a, b, c) + rest)[4..] == rest;
  }

  lemma TailReadsBack(rest: seq<Byte>)
    requires |rest| < 3
    ensures Decoded(Tail(rest)) == Some(rest)
  {
    hide Letter, LetterValue, Triple, Sextet, Joined, ByteAt;
    if rest != [] {
      var second: Byte := if |rest| == 2 then rest[1] else 0;
      var t := Triple(rest[0], second, 0);
      LettersReadBack(Sextet(t, 18));
      LettersReadBack(Sextet(t, 12));
      LettersReadBack(Sextet(t, 6));
      SextetsJoinBack(rest[0], second, 0);
      BytesComeBack(rest[0], second, 0);
      assert rest == if |rest| == 1 then [rest[0]] else [rest[0], rest[1]];
    }
  }

  /** Decoding undoes encoding, for byte strings of every length. */
  lemma {:induction false} DecodingUndoesEncoding(data: seq<Byte>)
    ensures Decoded(Encoded(data)) == Some(data)
  {
    hide Full, Tail, Decoded;
    if |data| < 3 {
      TailReadsBack(data);
    } else {
      DecodingUndoesEncoding(data[3..]);
      FullReadsBack(data[0], data[1], data[2], Encoded(data[3..]));
      assert [data[0], data[1], data[2]] + data[3..] == data;
    }
  }

  /** No padding: four letters for every three bytes, rounded up to whole letters. */
  lemma {:induction false} EncodedLength(data: seq<Byte>)
    ensures |Encoded(data)| == (4 * |data| + 2) / 3
    ensures forall k :: 0 <= k < |Encoded(data)| ==> InAlphabet(Encoded(data)[k])
  {
    hide Letter, LetterValue, Triple, Sextet, InAlphabet;
    if |data| < 3 {
      var t := if data == [] then 0 else Triple(data[0], if |data| == 2 then data[1] else 0, 0);
      LettersReadBack(Sextet(t, 18));
      LettersReadBack(Sextet(t, 12));
      LettersReadBack(Sextet(t, 6));
    } else {
      EncodedLength(data[3..]);
      var t := Triple(data[0], data[1], data[2]);
      LettersReadBack(Sextet(t, 18));
      LettersReadBack(Sextet(t, 12));
      LettersReadBack(Sextet(t, 6));
      LettersReadBack(Sextet(t, 0));
    }
  }
}
