/** `strings.ReplaceAll` and the escaping chains built from it. */
module Replacement {

  /** Left-to-right, non-overlapping replacement of a non-empty pattern. */
  function ReplaceAll(s: string, old': string, new': string): string
    requires old' != ""
    decreases |s|
  {
    if |s| < |old'| then s
    else if s[..|old'|] == old' then new' + ReplaceAll(s[|old'|..], old', new')
    else [s[0]] + ReplaceAll(s[1..], old', new')
  }

  lemma ReplaceSkipsOne(c: char, rest: string, old': string, new': string)
    requires old' != "" && old'[0] != c
    ensures ReplaceAll([c] + rest, old', new') == [c] + ReplaceAll(rest, old', new')
  {
  }

  /** A stretch of text without the pattern's first character passes through. */
  lemma {:induction false} ReplaceSkips(e: string, rest: string, old': string, new': string)
    requires old' != "" && old'[0] !in e
    ensures ReplaceAll(e + rest, old', new') == e + ReplaceAll(rest, old', new')
  {
    if e == "" {
      assert e + rest == rest;
    } else {
      ReplaceSkips(e[1..], rest, old', new');
      ReplaceSkipsOne(e[0], e[1..] + rest, old', new');
      assert e + rest == [e[0]] + (e[1..] + rest);
      assert [e[0]] + (e[1..] + ReplaceAll(rest, old', new')) == e + ReplaceAll(rest, old', new');
    }
  }

  /** An occurrence at the front is replaced. */
  lemma ReplaceHits(rest: string, old': string, new': string)
    requires old' != ""
    ensures ReplaceAll(old' + rest, old', new') == new' + ReplaceAll(rest, old', new')
  {
  }

  // ---- Entities ----

  /** Go's `html.EscapeString`, one character at a time. */
  function Entity(c: char): string {
    match c
    case '&' => "&amp;"
    case '\'' => "&#39;"
    case '<' => "&lt;"
    case '>' => "&gt;"
    case '"' => "&#34;"
    case _ => [c]
  }

  function EscapeString(s: string): string {
    if s == "" then "" else Entity(s[0]) + EscapeString(s[1..])
  }

  const BREAK := "<br>\n"

  /** The chain the source applies to plain text. */
  function EscapeThenBreak(value: string): string {
    var escaped := EscapeString(value);
    var lf := ReplaceAll(ReplaceAll(escaped, "\r\n", "\n"), "\r", "\n");
    ReplaceAll(lf, "\n", BREAK)
  }

  /** The same in one left-to-right pass over the original text. */
  function OnePass(value: string): string
    decreases |value|
  {
    if value == "" then ""
    else if |value| >= 2 && value[0] == '\r' && value[1] == '\n' then BREAK + OnePass(value[2..])
    else if value[0] == '\r' || value[0] == '\n' then BREAK + OnePass(value[1..])
    else Entity(value[0]) + OnePass(value[1..])
  }

  lemma EscapeKeepsFirst(value: string)
    ensures value == "" ==> EscapeString(value) == ""
    ensures value != "" ==> EscapeString(value) != ""
    ensures value != "" && value[0] == '\n' ==> EscapeString(value)[0] == '\n'
    ensures value != "" && value[0] != '\n' ==> EscapeString(value)[0] != '\n'
  {
  }

  function Lines1(s: string): string { ReplaceAll(s, "\r\n", "\n") }
  function Lines2(s: string): string { ReplaceAll(s, "\r", "\n") }

  lemma ChainAtCrLf(value: string)
    requires |value| >= 2 && value[0] == '\r' && value[1] == '\n'
    ensures EscapeThenBreak(value) == BREAK + EscapeThenBreak(value[2..])
  {
    var rest := EscapeString(value[2..]);
    assert value[1..][1..] == value[2..];
    assert EscapeString(value) == "\r\n" + rest;
    ReplaceHits(rest, "\r\n", "\n");
    ReplaceSkips("\n", Lines1(rest), "\r", "\n");
    ReplaceHits(Lines2(Lines1(rest)), "\n", BREAK);
  }

  lemma ChainAtCr(value: string)
    requires value != "" && value[0] == '\r' && !(|value| >= 2 && value[1] == '\n')
    ensures EscapeThenBreak(value) == BREAK + EscapeThenBreak(value[1..])
  {
    var rest := EscapeString(value[1..]);
    EscapeKeepsFirst(value[1..]);
    var s := "\r" + rest;
    assert s[1..] == rest;
    assert |s| >= 2 ==> s[..2] != "\r\n" by {
      if |s| >= 2 {
        assert s[..2][1] == rest[0];
      }
    }
    assert Lines1(s) == ['\r'] + Lines1(rest);
    ReplaceHits(Lines1(rest), "\r", "\n");
    ReplaceHits(Lines2(Lines1(rest)), "\n", BREAK);
  }

  lemma ChainAtLf(value: string)
    requires value != "" && value[0] == '\n'
    ensures EscapeThenBreak(value) == BREAK + EscapeThenBreak(value[1..])
  {
    var rest := EscapeString(value[1..]);
    ReplaceSkips("\n", rest, "\r\n", "\n");
    ReplaceSkips("\n", Lines1(rest), "\r", "\n");
    ReplaceHits(Lines2(Lines1(rest)), "\n", BREAK);
  }

  lemma EntityIsOneLine(c: char)
    requires c != '\r' && c != '\n'
    ensures '\r' !in Entity(c) && '\n' !in Entity(c)
  {
  }

  lemma ChainAtOther(value: string)
    requires value != "" && value[0] != '\r' && value[0] != '\n'
    ensures EscapeThenBreak(value) == Entity(value[0]) + EscapeThenBreak(value[1..])
  {
    var e, rest := Entity(value[0]), EscapeString(value[1..]);
    EntityIsOneLine(value[0]);
    assert EscapeString(value) == e + rest;
    ReplaceSkips(e, rest, "\r\n", "\n");
    ReplaceSkips(e, Lines1(rest), "\r", "\n");
    ReplaceSkips(e, Lines2(Lines1(rest)), "\n", BREAK);
  }

  /** The replacement order makes the chain equal to the single pass, for every text. */
  lemma {:induction false} ChainIsOnePass(value: string)
    ensures EscapeThenBreak(value) == OnePass(value)
    decreases |value|
  {
    if value != "" {
      if |value| >= 2 && value[0] == '\r' && value[1] == '\n' {
        ChainIsOnePass(value[2..]);
        ChainAtCrLf(value);
      } else if value[0] == '\r' {
        ChainIsOnePass(value[1..]);
        ChainAtCr(value);
      } else if value[0] == '\n' {
        ChainIsOnePass(value[1..]);
        ChainAtLf(value);
      } else {
        ChainIsOnePass(value[1..]);
        ChainAtOther(value);
      }
    }
  }

  // ---- Reading entities back ----

  predicate StartsWith(s: string, prefix: string) {
    |prefix| <= |s| && s[..|prefix|] == prefix
  }

  /** The character a reader sees at the front of non-empty HTML text, and how much text it takes. */
  function Decode(s: string): (r: (char, nat))
    requires s != ""
    ensures 1 <= r.1 <= |s|
  {
    if StartsWith(s, "&amp;") then ('&', 5)
    else if StartsWith(s, "&lt;") then ('<', 4)
    else if StartsWith(s, "&gt;") then ('>', 4)
    else if StartsWith(s, "&#39;") then ('\'', 5)
    else if StartsWith(s, "&#34;") then ('"', 5)
    else if StartsWith(s, "&quot;") then ('"', 6)
    else (s[0], 1)
  }

  function Unescape(s: string): string
    decreases |s|
  {
    if s == "" then "" else [Decode(s).0] + Unescape(s[Decode(s).1..])
  }

  lemma DecodeEntity(c: char, rest: string)
    ensures Decode(Entity(c) + rest) == (c, |Entity(c)|)
    ensures (Entity(c) + rest)[|Entity(c)|..] == rest
  {
    assert StartsWith(Entity(c) + rest, Entity(c));
    assert (Entity(c) + rest)[0] == Entity(c)[0];
    if |Entity(c)| == 1 {
      assert c != '&';
    } else {
      var s := Entity(c) + rest;
      assert s[1] == Entity(c)[1] && s[2] == Entity(c)[2] && s[3] == Entity(c)[3];
    }
  }

  /** Reading escaped text gives the text back. */
  lemma {:induction false} UnescapeEscape(value: string)
    ensures Unescape(EscapeString(value)) == value
  {
    if value != "" {
      UnescapeEscape(value[1..]);
      DecodeEntity(value[0], EscapeString(value[1..]));
    }
  }

  /** Holds nothing that opens or ends a tag or a quoted attribute. */
  predicate Inert(s: string) {
    '<' !in s && '>' !in s && '"' !in s && '\'' !in s
  }

  lemma InertThen(a: string, b: string)
    requires Inert(a) && Inert(b)
    ensures Inert(a + b)
  {
  }

  lemma EntityIsInert(c: char)
    ensures Inert(Entity(c))
  {
  }

  lemma {:induction false} EscapedIsInert(value: string)
    ensures var e := EscapeString(value); '<' !in e && '>' !in e && '"' !in e && '\'' !in e
  {
    if value != "" {
      EscapedIsInert(value[1..]);
      EntityIsInert(value[0]);
      InertThen(Entity(value[0]), EscapeString(value[1..]));
    }
  }

  // ---- The web client's five replacements ----

  function EscapeEmbedHtml(value: string): string {
    var a := ReplaceAll(value, "&", "&amp;");
    var b := ReplaceAll(a, "<", "&lt;");
    var c := ReplaceAll(b, ">", "&gt;");
    var d := ReplaceAll(c, "\"", "&quot;");
    ReplaceAll(d, "'", "&#39;")
  }

  function EmbedEntity(c: char): string {
    if c == '"' then "&quot;" else Entity(c)
  }

  function EmbedMap(value: string): string {
    if value == "" then "" else EmbedEntity(value[0]) + EmbedMap(value[1..])
  }

  lemma ReplaceChar(c: char, rest: string, p: char, new': string)
    ensures ReplaceAll([c] + rest, [p], new') == (if c == p then new' else [c]) + ReplaceAll(rest, [p], new')
  {
  }

  /** An entity already written is left alone by the later replacements: none of them looks for '&' again. */
  lemma EntityPasses(e: string, rest: string)
    requires e in {"&amp;", "&lt;", "&gt;", "&quot;"}
    ensures ReplaceAll(e + rest, "<", "&lt;") == e + ReplaceAll(rest, "<", "&lt;")
    ensures ReplaceAll(e + rest, ">", "&gt;") == e + ReplaceAll(rest, ">", "&gt;")
    ensures ReplaceAll(e + rest, "\"", "&quot;") == e + ReplaceAll(rest, "\"", "&quot;")
    ensures ReplaceAll(e + rest, "'", "&#39;") == e + ReplaceAll(rest, "'", "&#39;")
  {
    ReplaceSkips(e, rest, "<", "&lt;");
    ReplaceSkips(e, rest, ">", "&gt;");
    ReplaceSkips(e, rest, "\"", "&quot;");
    ReplaceSkips(e, rest, "'", "&#39;");
  }

  lemma EmbedStep(c: char, rest: string)
    ensures EscapeEmbedHtml([c] + rest) == EmbedEntity(c) + EscapeEmbedHtml(rest)
  {
    var r1 := ReplaceAll(rest, "&", "&amp;");
    var r2 := ReplaceAll(r1, "<", "&lt;");
    var r3 := ReplaceAll(r2, ">", "&gt;");
    var r4 := ReplaceAll(r3, "\"", "&quot;");
    ReplaceChar(c, rest, '&', "&amp;");
    if c == '&' {
      EntityPasses("&amp;", r1);
      EntityPasses("&amp;", r2);
      EntityPasses("&amp;", r3);
      EntityPasses("&amp;", r4);
    } else {
      ReplaceChar(c, r1, '<', "&lt;");
      if c == '<' {
        EntityPasses("&lt;", r2);
        EntityPasses("&lt;", r3);
        EntityPasses("&lt;", r4);
      } else {
        ReplaceChar(c, r2, '>', "&gt;");
        if c == '>' {
          EntityPasses("&gt;", r3);
          EntityPasses("&gt;", r4);
        } else {
          ReplaceChar(c, r3, '"', "&quot;");
          if c == '"' {
            EntityPasses("&quot;", r4);
          } else {
            ReplaceChar(c, r4, '\'', "&#39;");
          }
        }
      }
    }
  }

  /** Five ordered replacements are one simultaneous substitution. */
  lemma {:induction false} EmbedChainIsMap(value: string)
    ensures EscapeEmbedHtml(value) == EmbedMap(value)
  {
    if value != "" {
      EmbedChainIsMap(value[1..]);
      EmbedStep(value[0], value[1..]);
      assert value == [value[0]] + value[1..];
    }
  }

  lemma EmbedEntityIsInert(c: char)
    ensures Inert(EmbedEntity(c))
  {
    EntityIsInert(c);
  }

  lemma {:induction false} EmbedMapIsInert(value: string)
    ensures Inert(EmbedMap(value))
  {
    if value != "" {
      EmbedMapIsInert(value[1..]);
      EmbedEntityIsInert(value[0]);
      InertThen(EmbedEntity(value[0]), EmbedMap(value[1..]));
    }
  }

  /** What is embedded holds nothing that opens or ends a tag or a quoted attribute. */
  lemma EmbedIsInert(value: string)
    ensures var e := EscapeEmbedHtml(value); '<' !in e && '>' !in e && '"' !in e && '\'' !in e
  {
    EmbedChainIsMap(value);
    EmbedMapIsInert(value);
  }

  lemma DecodeEmbedEntity(c: char, rest: string)
    ensures Decode(EmbedEntity(c) + rest) == (c, |EmbedEntity(c)|)
    ensures (EmbedEntity(c) + rest)[|EmbedEntity(c)|..] == rest
  {
    if c == '"' {
      var s := "&quot;" + rest;
      assert StartsWith(s, "&quot;") && s[1] == 'q';
    } else {
      DecodeEntity(c, rest);
    }
  }

  /** So embedding text as HTML loses nothing: a reader sees exactly the text. */
  lemma {:induction false} EmbedIsReadable(value: string)
    ensures Unescape(EscapeEmbedHtml(value)) == value
  {
    EmbedChainIsMap(value);
    if value != "" {
      EmbedIsReadable(value[1..]);
      EmbedChainIsMap(value[1..]);
      DecodeEmbedEntity(value[0], EmbedMap(value[1..]));
    }
  }
}
