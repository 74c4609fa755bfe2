/** What a reader sees in the finished page: exactly the text that was written, and exactly the planned links. */
module EmailReading {
  import opened Basics
  import opened Replacement
  import opened EmailHtml

  datatype Seen = Glyph(c: char) | Link(href: string) | Image(src: string)

  const LINK_START := "<a href=\""
  const IMAGE_START := "<img src=\""
  const LINE_BREAK := "<br>"

  /** Up to and including the first '>'. */
  function TagLength(s: string): (n: nat)
    ensures n <= |s| && (s != "" ==> n > 0)
  {
    if s == "" then 0 else if s[0] == '>' then 1 else 1 + TagLength(s[1..])
  }

  function UpToQuote(s: string): string {
    if s == "" || s[0] == '"' then "" else [s[0]] + UpToQuote(s[1..])
  }

  function ReadTag(tag: string): seq<Seen> {
    if StartsWith(tag, LINK_START) then [Link(Unescape(UpToQuote(tag[|LINK_START|..])))]
    else if StartsWith(tag, IMAGE_START) then [Image(Unescape(UpToQuote(tag[|IMAGE_START|..])))]
    else if tag == LINE_BREAK then [Glyph('\n')]
    else []
  }

  /** Entities are decoded, a link shows where it leads and an image where it is loaded from, and a line ends where
      it is told to; other tags, and line ends of the markup itself, are invisible. */
  function Read(html: string): seq<Seen>
    decreases |html|
  {
    if html == "" then []
    else if html[0] == '<' then ReadTag(html[..TagLength(html)]) + Read(html[TagLength(html)..])
    else if html[0] == '\n' then Read(html[1..])
    else [Glyph(Decode(html).0)] + Read(html[Decode(html).1..])
  }

  function Glyphs(s: string): seq<Seen> {
    if s == "" then [] else [Glyph(s[0])] + Glyphs(s[1..])
  }

  function TextOf(seen: seq<Seen>): string {
    if seen == [] then "" else (if seen[0].Glyph? then [seen[0].c] else "") + TextOf(seen[1..])
  }

  function HrefsOf(seen: seq<Seen>): seq<string> {
    if seen == [] then [] else (if seen[0].Link? then [seen[0].href] else []) + HrefsOf(seen[1..])
  }

  function ImagesOf(seen: seq<Seen>): seq<string> {
    if seen == [] then [] else (if seen[0].Image? then [seen[0].src] else []) + ImagesOf(seen[1..])
  }

  /** CR LF and CR become LF. */
  function Newlines(s: string): string
    decreases |s|
  {
    if s == "" then ""
    else if |s| >= 2 && s[0] == '\r' && s[1] == '\n' then "\n" + Newlines(s[2..])
    else if s[0] == '\r' then "\n" + Newlines(s[1..])
    else [s[0]] + Newlines(s[1..])
  }

  // ---- Pieces of HTML ----

  /** `piece` always reads as `seen`, whatever comes after it. */
  ghost predicate Reads(piece: string, seen: seq<Seen>) {
    forall rest {:trigger Read(piece + rest)} :: Read(piece + rest) == seen + Read(rest)
  }

  /** Pieces written one after the other read one after the other. */
  lemma ReadsThen(x: string, y: string, sx: seq<Seen>, sy: seq<Seen>)
    requires Reads(x, sx) && Reads(y, sy)
    ensures Reads(x + y, sx + sy)
  {
    forall rest ensures Read((x + y) + rest) == (sx + sy) + Read(rest) {
      Assoc(x, y, rest);
      Assoc(sx, sy, Read(rest));
      assert Read(x + (y + rest)) == sx + Read(y + rest);
    }
  }

  lemma ReadsThree(x: string, y: string, z: string, sx: seq<Seen>, sy: seq<Seen>, sz: seq<Seen>)
    requires Reads(x, sx) && Reads(y, sy) && Reads(z, sz)
    ensures Reads(x + y + z, sx + sy + sz)
  {
    ReadsThen(x, y, sx, sy);
    ReadsThen(x + y, z, sx + sy, sz);
  }

  lemma ReadsWhole(piece: string, seen: seq<Seen>)
    requires Reads(piece, seen)
    ensures Read(piece) == seen
  {
    assert Read(piece + "") == seen + Read("");
    assert piece + "" == piece;
  }

  lemma ReadsNothing()
    ensures Reads("", [])
  {
    forall rest: string ensures Read("" + rest) == [] + Read(rest) {
      assert "" + rest == rest;
    }
  }

  lemma {:induction false} TagLengthIs(x: string, rest: string)
    requires '>' !in x
    ensures TagLength(x + (">" + rest)) == |x| + 1
  {
    if x == "" {
      assert x + (">" + rest) == ">" + rest;
    } else {
      TagLengthIs(x[1..], rest);
      assert (x + (">" + rest))[1..] == x[1..] + (">" + rest);
    }
  }

  lemma ReadTagFirst(x: string, rest: string)
    requires x != "" && x[0] == '<' && '>' !in x
    ensures Read((x + ">") + rest) == ReadTag(x + ">") + Read(rest)
  {
    TagLengthIs(x, rest);
    var html := (x + ">") + rest;
    assert html == x + (">" + rest);
    assert html[..|x| + 1] == x + ">" && html[|x| + 1..] == rest;
  }

  lemma ReadsTag(x: string)
    requires x != "" && x[0] == '<' && '>' !in x
    ensures Reads(x + ">", ReadTag(x + ">"))
  {
    forall rest ensures Read((x + ">") + rest) == ReadTag(x + ">") + Read(rest) {
      ReadTagFirst(x, rest);
    }
  }

  /** Every tag but a link's start, an image and a line break is invisible. */
  lemma ReadsSilent(x: string)
    requires |x| > 2 && x[0] == '<' && '>' !in x && (x[1] != 'a' || x[2] != ' ') && x[1] != 'i'
    requires x[1] != 'b' || x[2] != 'r'
    ensures Reads(x + ">", [])
  {
    ReadsTag(x);
    assert (x + ">")[1] == x[1] && (x + ">")[2] == x[2];
    assert LINK_START[1] == 'a' && LINK_START[2] == ' ' && IMAGE_START[1] == 'i';
    assert LINE_BREAK[1] == 'b' && LINE_BREAK[2] == 'r';
  }

  lemma ReadsEntity(c: char)
    requires c != '\n'
    ensures Reads(Entity(c), [Glyph(c)])
  {
    forall rest ensures Read(Entity(c) + rest) == [Glyph(c)] + Read(rest) {
      DecodeEntity(c, rest);
      assert (Entity(c) + rest)[0] == Entity(c)[0] != '<' && Entity(c)[0] != '\n';
    }
  }

  lemma GlyphsStep(c: char, s: string)
    ensures Glyphs([c] + s) == [Glyph(c)] + Glyphs(s)
  {
  }

  /** Escaped text reads as the text. */
  lemma {:induction false} ReadsEscaped(v: string)
    requires '\n' !in v
    ensures Reads(EscapeString(v), Glyphs(v))
  {
    if v == "" {
      ReadsNothing();
    } else {
      ReadsEscaped(v[1..]);
      ReadsEntity(v[0]);
      ReadsThen(Entity(v[0]), EscapeString(v[1..]), [Glyph(v[0])], Glyphs(v[1..]));
    }
  }

  lemma {:induction false} PlainIsEscaped(v: string)
    requires forall i :: 0 <= i < |v| ==> v[i] !in "&<>\"'"
    ensures EscapeString(v) == v
  {
    if v != "" {
      PlainIsEscaped(v[1..]);
      assert Entity(v[0]) == [v[0]];
    }
  }

  lemma ReadsPlain(v: string)
    requires '\n' !in v && forall i :: 0 <= i < |v| ==> v[i] !in "&<>\"'"
    ensures Reads(v, Glyphs(v))
  {
    PlainIsEscaped(v);
    ReadsEscaped(v);
  }

  lemma ReadsLineEnd()
    ensures Reads("\n", [])
  {
    forall rest ensures Read("\n" + rest) == [] + Read(rest) {
      assert ("\n" + rest)[1..] == rest;
      assert [] + Read(rest) == Read(rest);
    }
  }

  lemma ReadsBreak()
    ensures Reads(BREAK, [Glyph('\n')])
  {
    ReadsTag("<br");
    assert "<br" + ">" == LINE_BREAK;
    assert !StartsWith(LINE_BREAK, LINK_START) && !StartsWith(LINE_BREAK, IMAGE_START);
    ReadsLineEnd();
    ReadsThen("<br" + ">", "\n", [Glyph('\n')], []);
    assert BREAK == ("<br" + ">") + "\n";
    assert [Glyph('\n')] + [] == [Glyph('\n')];
  }

  lemma ReadsFront(first: string, c: char, later: string, text: string)
    requires Reads(first, [Glyph(c)]) && Reads(later, Glyphs(text))
    ensures Reads(first + later, Glyphs([c] + text))
  {
    ReadsThen(first, later, [Glyph(c)], Glyphs(text));
    GlyphsStep(c, text);
  }

  /** Escaped text with breaks reads as the text, with its line ends made uniform. */
  lemma {:induction false} ReadsOnePass(v: string)
    ensures Reads(OnePass(v), Glyphs(Newlines(v)))
    decreases |v|
  {
    if v == "" {
      ReadsNothing();
    } else if |v| >= 2 && v[0] == '\r' && v[1] == '\n' {
      ReadsOnePass(v[2..]);
      ReadsBreak();
      ReadsFront(BREAK, '\n', OnePass(v[2..]), Newlines(v[2..]));
    } else if v[0] == '\r' || v[0] == '\n' {
      ReadsOnePass(v[1..]);
      ReadsBreak();
      ReadsFront(BREAK, '\n', OnePass(v[1..]), Newlines(v[1..]));
    } else {
      ReadsOnePass(v[1..]);
      ReadsEntity(v[0]);
      ReadsFront(Entity(v[0]), v[0], OnePass(v[1..]), Newlines(v[1..]));
    }
  }

  lemma {:induction false} UpToQuoteIs(x: string, rest: string)
    requires '"' !in x
    ensures UpToQuote(x + ("\"" + rest)) == x
  {
    if x == "" {
      assert x + ("\"" + rest) == "\"" + rest;
    } else {
      UpToQuoteIs(x[1..], rest);
      assert (x + ("\"" + rest))[1..] == x[1..] + ("\"" + rest);
    }
  }

  lemma LinkTagOf(e: string)
    requires '"' !in e
    ensures ReadTag(LINK_START + (e + ("\"" + ">"))) == [Link(Unescape(e))]
  {
    UpToQuoteIs(e, ">");
  }

  lemma LinkTag(href: string)
    ensures ReadTag(A_OPEN + EscapeString(href) + A_END) == [Link(href)]
  {
    var e := EscapeString(href);
    EscapedIsInert(href);
    UnescapeEscape(href);
    LinkTagOf(e);
    assert A_END == "\"" + ">" && A_OPEN == LINK_START;
    Assoc(A_OPEN, e, A_END);
  }

  lemma ReadsLinkTag(href: string)
    ensures Reads(A_OPEN + EscapeString(href) + A_END, [Link(href)])
  {
    var e := EscapeString(href);
    EscapedIsInert(href);
    assert A_END == "\"" + ">";
    Assoc(A_OPEN + e, "\"", ">");
    assert '>' !in A_OPEN;
    ReadsTag(A_OPEN + e + "\"");
    LinkTag(href);
  }

  lemma ReadsLinkEnd()
    ensures Reads(A_CLOSE, [])
  {
    ReadsSilent("</a");
    assert A_CLOSE == "</a" + ">";
  }

  lemma EmptyTail<T>(a: seq<T>)
    ensures a + [] == a
  {
  }

  /** A link reads as where it leads and its caption. */
  lemma ReadsAnchor(href: string, caption: string)
    requires '\n' !in caption
    ensures Reads(AnchorHtml(href, caption), [Link(href)] + Glyphs(caption))
  {
    var tag := A_OPEN + EscapeString(href) + A_END;
    ReadsLinkTag(href);
    ReadsEscaped(caption);
    ReadsThen(tag, EscapeString(caption), [Link(href)], Glyphs(caption));
    ReadsLinkEnd();
    ReadsThen(tag + EscapeString(caption), A_CLOSE, [Link(href)] + Glyphs(caption), []);
    EmptyTail([Link(href)] + Glyphs(caption));
  }

  // ---- The body ----

  function ExpectedAt(t: string, last: nat, a: Anchor): seq<Seen>
    requires last <= a.span.start && a.span.start + |a.target| <= a.span.end <= |t|
  {
    Glyphs(Newlines(t[last..a.span.start])) + ([Link(a.href)] + Glyphs(a.target))
    + Glyphs(Newlines(t[a.span.start + |a.target|..a.span.end]))
  }

  /** What the body should look like from `last` on. */
  function Expected(t: string, last: nat, anchors: seq<Anchor>): seq<Seen>
    requires last <= |t| && Placed(t, last, anchors)
    decreases |anchors|
  {
    if anchors == [] then Glyphs(Newlines(t[last..]))
    else ExpectedAt(t, last, anchors[0]) + Expected(t, anchors[0].span.end, anchors[1..])
  }

  lemma ReadsAround(x: string, href: string, caption: string, z: string)
    requires '\n' !in caption
    ensures Reads(OnePass(x) + AnchorHtml(href, caption) + OnePass(z),
                  Glyphs(Newlines(x)) + ([Link(href)] + Glyphs(caption)) + Glyphs(Newlines(z)))
  {
    ReadsOnePass(x);
    ReadsAnchor(href, caption);
    ReadsOnePass(z);
    ReadsThree(OnePass(x), AnchorHtml(href, caption), OnePass(z),
               Glyphs(Newlines(x)), [Link(href)] + Glyphs(caption), Glyphs(Newlines(z)));
  }

  lemma SamePiece(x: string, y: string, sx: seq<Seen>, sy: seq<Seen>)
    requires Reads(x, sx) && x == y && sx == sy
    ensures Reads(y, sy)
  {
  }

  lemma ReadsWritten(t: string, last: nat, a: Anchor)
    requires last <= a.span.start && a.span.start + |a.target| <= a.span.end <= |t| && '\n' !in a.target
    ensures Reads(Written(t, last, a), ExpectedAt(t, last, a))
  {
    var x, z := t[last..a.span.start], t[a.span.start + |a.target|..a.span.end];
    ReadsAround(x, a.href, a.target, z);
    SamePiece(OnePass(x) + AnchorHtml(a.href, a.target) + OnePass(z), Written(t, last, a),
              Glyphs(Newlines(x)) + ([Link(a.href)] + Glyphs(a.target)) + Glyphs(Newlines(z)), ExpectedAt(t, last, a));
  }

  lemma {:induction false} ReadsRendered(t: string, last: nat, anchors: seq<Anchor>)
    requires last <= |t| && Placed(t, last, anchors) && forall a :: a in anchors ==> '\n' !in a.target
    ensures Reads(RenderFrom(t, last, anchors), Expected(t, last, anchors))
    decreases |anchors|
  {
    if anchors == [] {
      ReadsOnePass(t[last..]);
    } else {
      var a := anchors[0];
      assert a in anchors;
      ReadsWritten(t, last, a);
      ReadsRendered(t, a.span.end, anchors[1..]);
      ReadsThen(Written(t, last, a), RenderFrom(t, a.span.end, anchors[1..]),
                ExpectedAt(t, last, a), Expected(t, a.span.end, anchors[1..]));
    }
  }

  // ---- The page ----

  /** What the footer should look like. */
  function FooterSeen(unsubscribeUrl: string): seq<Seen> {
    if unsubscribeUrl == "" then []
    else Glyphs(FOOTER_TEXT) + ([Link(unsubscribeUrl)] + Glyphs(FOOTER_LINK)) + Glyphs(".")
  }

  lemma ReadsSilentThen(x: string, y: string, seen: seq<Seen>)
    requires Reads(x, []) && Reads(y, seen)
    ensures Reads(x + y, seen)
  {
    ReadsThen(x, y, [], seen);
    assert [] + seen == seen;
  }

  lemma ReadsThenSilent(x: string, y: string, seen: seq<Seen>)
    requires Reads(x, seen) && Reads(y, [])
    ensures Reads(x + y, seen)
  {
    ReadsThen(x, y, seen, []);
    EmptyTail(seen);
  }

  lemma ReadsFooterTag()
    ensures Reads(FOOTER_TAG, [])
  {
    var x := "<p style=\"" + FOOTER_STYLE + "\"";
    assert '>' !in FOOTER_STYLE;
    assert x[0] == '<' && x[1] == 'p';
    ReadsSilent(x);
    assert FOOTER_TAG == x + ">";
  }

  lemma ReadsFooterText()
    ensures Reads(FOOTER_TEXT, Glyphs(FOOTER_TEXT))
  {
    ReadsPlain(FOOTER_TEXT);
  }

  lemma FooterLinkIsPlain()
    ensures '\n' !in FOOTER_LINK
  {
  }

  lemma ReadsFooterLink(unsubscribeUrl: string)
    ensures Reads(AnchorHtml(unsubscribeUrl, FOOTER_LINK), [Link(unsubscribeUrl)] + Glyphs(FOOTER_LINK))
  {
    FooterLinkIsPlain();
    ReadsAnchor(unsubscribeUrl, FOOTER_LINK);
  }

  lemma ReadsFooterDot()
    ensures Reads(".", Glyphs("."))
  {
    ReadsPlain(".");
  }

  lemma ReadsFooterClose()
    ensures Reads(FOOTER_CLOSE, [])
  {
    ReadsSilent("</p");
    assert FOOTER_CLOSE == "</p" + ">";
  }

  lemma ReadsFramed(open: string, x: string, y: string, z: string, close: string,
                    sx: seq<Seen>, sy: seq<Seen>, sz: seq<Seen>)
    requires Reads(open, []) && Reads(x, sx) && Reads(y, sy) && Reads(z, sz) && Reads(close, [])
    ensures Reads(open + x + y + z + close, sx + sy + sz)
  {
    ReadsSilentThen(open, x, sx);
    ReadsThree(open + x, y, z, sx, sy, sz);
    ReadsThenSilent(open + x + y + z, close, sx + sy + sz);
  }

  lemma ReadsFooter(unsubscribeUrl: string)
    ensures Reads(Footer(unsubscribeUrl), FooterSeen(unsubscribeUrl))
  {
    if unsubscribeUrl == "" {
      ReadsNothing();
    } else {
      ReadsFooterTag();
      ReadsFooterText();
      ReadsFooterLink(unsubscribeUrl);
      ReadsFooterDot();
      ReadsFooterClose();
      ReadsFramed(FOOTER_TAG, FOOTER_TEXT, AnchorHtml(unsubscribeUrl, FOOTER_LINK), ".", FOOTER_CLOSE,
                  Glyphs(FOOTER_TEXT), [Link(unsubscribeUrl)] + Glyphs(FOOTER_LINK), Glyphs("."));
    }
  }

  /** The tracking pixel is an image loaded from the tracking address, if there is one. */
  function PixelSeen(trackingUrl: string): seq<Seen> {
    if trackingUrl == "" then [] else [Image(trackingUrl)]
  }

  lemma PixelIsPlain()
    ensures '>' !in PIXEL_OPEN && '>' !in PIXEL_SIZE
    ensures PIXEL_OPEN == IMAGE_START && PIXEL_SIZE[0] == '"'
  {
  }

  lemma ImageTag(e: string, attributes: string)
    requires '"' !in e
    ensures ReadTag(IMAGE_START + (e + ("\"" + attributes))) == [Image(Unescape(e))]
  {
    UpToQuoteIs(e, attributes);
    var tag := IMAGE_START + (e + ("\"" + attributes));
    assert tag[1] == 'i' && LINK_START[1] == 'a';
  }

  lemma ImageTagOf(open: string, e: string, size: string)
    requires open == IMAGE_START && '"' !in e && size != "" && size[0] == '"'
    ensures ReadTag(open + e + size) == [Image(Unescape(e))]
  {
    ImageTag(e, size[1..]);
    assert size == "\"" + size[1..];
    Assoc(open, e, size);
  }

  lemma PixelTag(trackingUrl: string)
    ensures ReadTag(PIXEL_OPEN + EscapeString(trackingUrl) + PIXEL_CLOSE) == [Image(trackingUrl)]
  {
    EscapedIsInert(trackingUrl);
    UnescapeEscape(trackingUrl);
    PixelIsPlain();
    ImageTagOf(PIXEL_OPEN, EscapeString(trackingUrl), PIXEL_CLOSE);
  }

  lemma ReadsPixel(trackingUrl: string)
    ensures Reads(Pixel(trackingUrl), PixelSeen(trackingUrl))
  {
    if trackingUrl == "" {
      ReadsNothing();
    } else {
      var x := PIXEL_OPEN + EscapeString(trackingUrl) + PIXEL_SIZE;
      EscapedIsInert(trackingUrl);
      PixelIsPlain();
      ReadsTag(x);
      PixelTag(trackingUrl);
      Assoc(PIXEL_OPEN + EscapeString(trackingUrl), PIXEL_SIZE, ">");
    }
  }

  lemma ReadsPageOpen()
    ensures Reads(PAGE_OPEN, [])
  {
    ReadsSilent("<!doctype html");
    ReadsSilent("<html");
    ReadsSilent("<body");
    ReadsSilent("<div");
    assert "<!doctype html>" == "<!doctype html" + ">";
    assert "<html>" == "<html" + ">";
    assert "<body>" == "<body" + ">";
    assert "<div>" == "<div" + ">";
    ReadsSilentThen("<!doctype html>", "<html>", []);
    ReadsSilentThen("<!doctype html>" + "<html>", "<body>", []);
    ReadsSilentThen("<!doctype html>" + "<html>" + "<body>", "<div>", []);
  }

  lemma ReadsPageClose()
    ensures Reads("</div>", []) && Reads(PAGE_CLOSE, [])
  {
    ReadsSilent("</div");
    ReadsSilent("</body");
    ReadsSilent("</html");
    assert "</div>" == "</div" + ">";
    assert "</body>" == "</body" + ">";
    assert "</html>" == "</html" + ">";
    ReadsSilentThen("</body>", "</html>", []);
  }

  /** The page reads as its body, its footer and its pixel; all other markup is invisible. */
  lemma PageReads(body: string, seen: seq<Seen>, trackingUrl: string, unsubscribeUrl: string)
    requires Reads(body, seen)
    ensures Read(Page(body, trackingUrl, unsubscribeUrl))
         == seen + FooterSeen(unsubscribeUrl) + PixelSeen(trackingUrl)
  {
    var all := seen + FooterSeen(unsubscribeUrl);
    var inner := body + Footer(unsubscribeUrl);
    ReadsFooter(unsubscribeUrl);
    ReadsThen(body, Footer(unsubscribeUrl), seen, FooterSeen(unsubscribeUrl));
    ReadsPageOpen();
    ReadsSilentThen(PAGE_OPEN, inner, all);
    ReadsPageClose();
    ReadsThenSilent(PAGE_OPEN + inner, "</div>", all);
    ReadsPixel(trackingUrl);
    ReadsThen(PAGE_OPEN + inner + "</div>", Pixel(trackingUrl), all, PixelSeen(trackingUrl));
    ReadsThenSilent(PAGE_OPEN + inner + "</div>" + Pixel(trackingUrl), PAGE_CLOSE, all + PixelSeen(trackingUrl));
    ReadsWhole(Page(body, trackingUrl, unsubscribeUrl), all + PixelSeen(trackingUrl));
  }
}
