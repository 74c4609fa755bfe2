/** Unpadded URL-safe base64, section 5 of RFC 4648, with the leniencies of the decoder in use. */
module Base64Url {
  import opened Basics

  type byte = x: int | 0 <= x < 256

  type sextet = x: int | 0 <= x < 64

  function Symbol(v: sextet): char {
    if v < 26 then 'A' + v as char
    else if v < 52 then 'a' + (v - 26) as char
    else if v < 62 then '0' + (v - 52) as char
    else if v == 62 then '-'
    else '_'
  }

  function Value(c: char): Option<sextet> {
    if 'A' <= c <= 'Z' then Some((c - 'A') as int)
    else if 'a' <= c <= 'z' then Some((c - 'a') as int + 26)
    else if '0' <= c <= '9' then Some((c - '0') as int + 52)
    else if c == '-' then Some(62)
    else if c == '_' then Some(63)
    else None
  }

  lemma SymbolHasItsValue(v: sextet)
    ensures Value(Symbol(v)) == Some(v)
    ensures Symbol(v) != '.' && Symbol(v) != '\r' && Symbol(v) != '\n'
  {
  }

  /** Three bytes become four symbols; one or two bytes at the end become two or three, without padding. */
  function Encode(b: seq<byte>): string
    decreases |b|
  {
    if b == [] then ""
    else if |b| == 1 then [Symbol(b[0] / 4), Symbol(b[0] % 4 * 16)]
    else if |b| == 2 then [Symbol(b[0] / 4), Symbol(b[0] % 4 * 16 + b[1] / 16), Symbol(b[1] % 16 * 4)]
    else
      [Symbol(b[0] / 4), Symbol(b[0] % 4 * 16 + b[1] / 16), Symbol(b[1] % 16 * 4 + b[2] / 64), Symbol(b[2] % 64)]
      + Encode(b[3..])
  }

  /** All symbols' values, or nothing if some character is not a symbol. */
  function Values(s: string): Option<seq<sextet>> {
    if s == "" then Some([])
    else
      match (Value(s[0]), Values(s[1..]))
      case (Some(v), Some(vs)) => Some([v] + vs)
      case _ => None
  }

  function First(x: int, y: int): int { x * 4 + y / 16 }
  function Second(x: int, y: int): int { x % 16 * 16 + y / 4 }
  function Third(x: int, y: int): int { x % 4 * 64 + y }

  /** Left-over bits of a short last group are not looked at; a single left-over symbol is an error. */
  function Bytes(v: seq<sextet>): Option<seq<byte>>
    decreases |v|
  {
    if v == [] then Some([])
    else if |v| == 1 then None
    else if |v| == 2 then Some([First(v[0], v[1])])
    else if |v| == 3 then Some([First(v[0], v[1]), Second(v[1], v[2])])
    else
      match Bytes(v[4..])
      case None => None
      case Some(rest) =>
        Some([First(v[0], v[1]), Second(v[1], v[2]), Third(v[2], v[3])] + rest)
  }

  /** Line ends are skipped wherever they stand. */
  function SkipLineEnds(s: string): string {
    if s == "" then ""
    else if s[0] == '\r' || s[0] == '\n' then SkipLineEnds(s[1..])
    else [s[0]] + SkipLineEnds(s[1..])
  }

  function Decode(s: string): Option<seq<byte>> {
    match Values(SkipLineEnds(s))
    case None => None
    case Some(v) => Bytes(v)
  }

  // ---- Decoding what was encoded ----

  function Sextets(b: seq<byte>): seq<sextet>
    decreases |b|
  {
    if b == [] then []
    else if |b| == 1 then [b[0] / 4, b[0] % 4 * 16]
    else if |b| == 2 then [b[0] / 4, b[0] % 4 * 16 + b[1] / 16, b[1] % 16 * 4]
    else [b[0] / 4, b[0] % 4 * 16 + b[1] / 16, b[1] % 16 * 4 + b[2] / 64, b[2] % 64] + Sextets(b[3..])
  }

  function Symbols(v: seq<sextet>): string {
    if v == [] then "" else [Symbol(v[0])] + Symbols(v[1..])
  }

  lemma {:induction false} SymbolsAppend(x: seq<sextet>, y: seq<sextet>)
    ensures Symbols(x + y) == Symbols(x) + Symbols(y)
  {
    if x == [] {
      assert x + y == y;
    } else {
      SymbolsAppend(x[1..], y);
      assert (x + y)[1..] == x[1..] + y && (x + y)[0] == x[0];
    }
  }

  lemma ShortSymbols(v: seq<sextet>)
    requires 2 <= |v| <= 4
    ensures |v| == 2 ==> Symbols(v) == [Symbol(v[0]), Symbol(v[1])]
    ensures |v| == 3 ==> Symbols(v) == [Symbol(v[0]), Symbol(v[1]), Symbol(v[2])]
    ensures |v| == 4 ==> Symbols(v) == [Symbol(v[0]), Symbol(v[1]), Symbol(v[2]), Symbol(v[3])]
  {
  }

  lemma {:induction false} EncodeIsSymbols(b: seq<byte>)
    ensures Encode(b) == Symbols(Sextets(b))
    decreases |b|
  {
    if |b| == 1 {
      ShortSymbols(Sextets(b));
    } else if |b| == 2 {
      ShortSymbols(Sextets(b));
    } else if |b| > 2 {
      var group: seq<sextet> := [b[0] / 4, b[0] % 4 * 16 + b[1] / 16, b[1] % 16 * 4 + b[2] / 64, b[2] % 64];
      EncodeIsSymbols(b[3..]);
      SymbolsAppend(group, Sextets(b[3..]));
      ShortSymbols(group);
    }
  }

  lemma {:induction false} ValuesOfSymbols(v: seq<sextet>)
    ensures Values(Symbols(v)) == Some(v)
    ensures SkipLineEnds(Symbols(v)) == Symbols(v)
    ensures '.' !in Symbols(v)
  {
    if v != [] {
      ValuesOfSymbols(v[1..]);
      SymbolHasItsValue(v[0]);
      assert Symbols(v)[1..] == Symbols(v[1..]);
      assert [v[0]] + v[1..] == v;
    }
  }

  lemma GroupComesBack(a: byte, b: byte, c: byte)
    ensures First(a / 4, a % 4 * 16 + b / 16) == a && First(a / 4, a % 4 * 16) == a
    ensures Second(a % 4 * 16 + b / 16, b % 16 * 4 + c / 64) == b && Second(a % 4 * 16 + b / 16, b % 16 * 4) == b
    ensures Third(b % 16 * 4 + c / 64, c % 64) == c
  {
  }

  lemma OneByte(a: byte)
    ensures Bytes([a / 4, a % 4 * 16]) == Some([a])
  {
  }

  lemma TwoBytes(a: byte, b: byte)
    ensures Bytes([a / 4, a % 4 * 16 + b / 16, b % 16 * 4]) == Some([a, b])
  {
    GroupComesBack(a, b, 0);
  }

  /** A whole group in front decodes to its three bytes. */
  lemma BytesOfGroup(v: seq<sextet>, a: byte, b: byte, c: byte, rest: seq<byte>)
    requires |v| >= 4 && Bytes(v[4..]) == Some(rest)
    requires First(v[0], v[1]) == a && Second(v[1], v[2]) == b && Third(v[2], v[3]) == c
    ensures Bytes(v) == Some([a, b, c] + rest)
  {
  }

  lemma {:induction false} BytesOfSextets(b: seq<byte>)
    ensures Bytes(Sextets(b)) == Some(b)
    decreases |b|
  {
    if |b| == 1 {
      OneByte(b[0]);
      assert b == [b[0]];
    } else if |b| == 2 {
      TwoBytes(b[0], b[1]);
      assert b == [b[0], b[1]];
    } else if |b| > 2 {
      BytesOfSextets(b[3..]);
      GroupComesBack(b[0], b[1], b[2]);
      assert Sextets(b)[4..] == Sextets(b[3..]);
      BytesOfGroup(Sextets(b), b[0], b[1], b[2], b[3..]);
      assert b == [b[0], b[1], b[2]] + b[3..];
    }
  }

  /** Decoding what was encoded gives the bytes back, and the encoded text has no '.' in it. */
  lemma DecodeEncode(b: seq<byte>)
    ensures Decode(Encode(b)) == Some(b)
    ensures '.' !in Encode(b)
    ensures b != [] ==> Encode(b) != ""
  {
    EncodeIsSymbols(b);
    ValuesOfSymbols(Sextets(b));
    BytesOfSextets(b);
  }

  // ---- The code itself ----

  const ALPHABET := "ABCDEFGHIJKLMNOPQRSTUVWXYZ" + "abcdefghijklmnopqrstuvwxyz" + "0123456789" + "-_"

  lemma SymbolInAlphabet(v: sextet)
    ensures |ALPHABET| == 64 && Symbol(v) == ALPHABET[v]
  {
    var upper, lower := "ABCDEFGHIJKLMNOPQRSTUVWXYZ", "abcdefghijklmnopqrstuvwxyz";
    assert forall i :: 0 <= i < 26 ==> upper[i] == 'A' + i as char;
    assert forall i :: 0 <= i < 26 ==> lower[i] == 'a' + i as char;
    assert forall i :: 0 <= i < 10 ==> "0123456789"[i] == '0' + i as char;
  }

  /** The symbol at `i`, read as a number by its place in the alphabet. */
  ghost predicate StandsFor(s: string, i: nat, v: sextet) {
    i < |s| && |ALPHABET| == 64 && s[i] == ALPHABET[v]
  }

  /** Three bytes and their four symbols are the same number of 24 bits; at the end one byte and four zero bits make
      two symbols, two bytes and two zero bits make three. */
  lemma EncodesBits(b: seq<byte>) returns (v: seq<sextet>)
    ensures b == [] ==> Encode(b) == ""
    ensures forall i :: 0 <= i < |v| ==> StandsFor(Encode(b), i, v[i])
    ensures |b| == 1 ==> |Encode(b)| == |v| == 2 && v[0] as int * 64 + v[1] as int == b[0] as int * 16
    ensures |b| == 2 ==>
              && |Encode(b)| == |v| == 3
              && v[0] as int * 4096 + v[1] as int * 64 + v[2] as int == (b[0] as int * 256 + b[1] as int) * 4
    ensures |b| >= 3 ==>
              && |v| == 4
              && v[0] as int * 262144 + v[1] as int * 4096 + v[2] as int * 64 + v[3] as int
                 == b[0] as int * 65536 + b[1] as int * 256 + b[2] as int
              && |Encode(b)| >= 4 && Encode(b)[4..] == Encode(b[3..])
  {
    v := [];
    if |b| == 1 {
      v := [b[0] / 4, b[0] % 4 * 16];
    } else if |b| == 2 {
      v := [b[0] / 4, b[0] % 4 * 16 + b[1] / 16, b[1] % 16 * 4];
    } else if |b| >= 3 {
      v := [b[0] / 4, b[0] % 4 * 16 + b[1] / 16, b[1] % 16 * 4 + b[2] / 64, b[2] % 64];
    }
    forall i | 0 <= i < |v| ensures StandsFor(Encode(b), i, v[i]) {
      SymbolInAlphabet(v[i]);
    }
  }

  lemma ValueInAlphabet(c: char)
    ensures Value(c).Some? <==> c in ALPHABET
  {
    if Value(c).Some? {
      SymbolInAlphabet(Value(c).value);
    }
    if c in ALPHABET {
      var i :| 0 <= i < |ALPHABET| && ALPHABET[i] == c;
      SymbolInAlphabet(0);
      SymbolInAlphabet(i);
      SymbolHasItsValue(i);
    }
  }

  lemma {:induction false} ValuesExactly(s: string)
    ensures Values(s).Some? <==> forall i :: 0 <= i < |s| ==> s[i] in ALPHABET
    ensures Values(s).Some? ==> |Values(s).value| == |s|
  {
    if s != "" {
      ValuesExactly(s[1..]);
      ValueInAlphabet(s[0]);
      assert forall i :: 0 < i < |s| ==> s[i] == s[1..][i - 1];
    }
  }

  lemma {:induction false} BytesExactly(v: seq<sextet>)
    ensures Bytes(v).Some? <==> |v| % 4 != 1
    decreases |v|
  {
    if |v| >= 4 {
      BytesExactly(v[4..]);
    }
  }

  lemma {:induction false} SkipsOne(x: string, c: char, y: string)
    requires c == '\r' || c == '\n'
    ensures SkipLineEnds(x + [c] + y) == SkipLineEnds(x + y)
  {
    if x == "" {
      assert (x + [c] + y)[1..] == y && x + y == y;
    } else {
      SkipsOne(x[1..], c, y);
      assert (x + [c] + y)[1..] == x[1..] + [c] + y && (x + y)[1..] == x[1..] + y;
    }
  }

  /** Only line ends are skipped. */
  lemma {:induction false} SkipsNothingElse(s: string)
    ensures '\r' !in SkipLineEnds(s) && '\n' !in SkipLineEnds(s)
    ensures '\r' !in s && '\n' !in s ==> SkipLineEnds(s) == s
  {
    if s != "" {
      SkipsNothingElse(s[1..]);
      assert s == [s[0]] + s[1..];
    }
  }

  /** What decodes: line ends aside, symbols of the alphabet, not one more than a whole number of groups. */
  lemma DecodableExactly(s: string)
    ensures var t := SkipLineEnds(s);
            Decode(s).Some? <==> |t| % 4 != 1 && forall i :: 0 <= i < |t| ==> t[i] in ALPHABET
  {
    var t := SkipLineEnds(s);
    ValuesExactly(t);
    if Values(t).Some? {
      BytesExactly(Values(t).value);
    }
  }
}
