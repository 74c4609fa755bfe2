/** The main facts about a rendered email: its text, its links, and where a click leads. */
module EmailMeaning {
  import opened Basics
  import opened Text
  import opened EmailHtml
  import opened EmailReading

  // ---- The planned links ----

  /** A link made from a URL of the text, less its trailing punctuation. */
  predicate Genuine(t: string, a: Anchor) {
    && SpanOk(t, 0, a.span)
    && a.target == TrimPunctuation(t[a.span.start..a.span.end])
  }

  ghost predicate AllGenuine(t: string, anchors: seq<Anchor>) {
    forall a :: a in anchors ==> Genuine(t, a)
  }

  /** A link with a token goes through that token's click address; a link without goes straight to its target. */
  predicate LedRight(w: World, baseUrl: string, a: Anchor) {
    && w.parsesAsHttp(TrimSpace(a.target))
    && match a.token
       case None => a.href == a.target
       case Some(token) =>
         && baseUrl != "" && TrimSpace(token) != "" && TrimSlashes(TrimSpace(baseUrl)) != ""
         && a.href == TrimSlashes(TrimSpace(baseUrl)) + "/api/email-messages/click/" + w.pathEscape(TrimSpace(token))
  }

  ghost predicate AllLedRight(w: World, baseUrl: string, anchors: seq<Anchor>) {
    forall a :: a in anchors ==> LedRight(w, baseUrl, a)
  }

  /** One span adds at most one link. */
  lemma PlanStep(w: World, t: string, baseUrl: string, spans: seq<Span>, tracked: nat, drawn: nat)
    returns (add: seq<Anchor>, tracked': nat, drawn': nat)
    requires spans != [] && InText(t, spans)
    ensures InText(t, spans[1..])
    ensures Plan(w, t, baseUrl, spans, tracked, drawn) == add + Plan(w, t, baseUrl, spans[1..], tracked', drawn')
    ensures tracked' == tracked + |LinksOf(add)|
    ensures var target := TrimPunctuation(t[spans[0].start..spans[0].end]);
            if !IsSafeClickUrl(w, target) then add == [] && drawn' == drawn
            else |add| == 1 && (add[0], drawn') == Choose(w, baseUrl, spans[0], target, tracked, drawn)
  {
    var target := TrimPunctuation(t[spans[0].start..spans[0].end]);
    add, tracked', drawn' := [], tracked, drawn;
    if IsSafeClickUrl(w, target) {
      var (a, d) := Choose(w, baseUrl, spans[0], target, tracked, drawn);
      add, tracked', drawn' := [a], tracked + Count(a), d;
      assert [a][1..] == [];
    } else {
      assert forall p: seq<Anchor> :: [] + p == p;
    }
  }

  lemma {:induction false} PlanFacts(
    w: World, t: string, baseUrl: string, spans: seq<Span>, tracked: nat, drawn: nat)
    requires InText(t, spans) && AllFound(t, 0, spans)
    ensures AllGenuine(t, Plan(w, t, baseUrl, spans, tracked, drawn))
    ensures AllLedRight(w, baseUrl, Plan(w, t, baseUrl, spans, tracked, drawn))
  {
    if spans != [] {
      var add, tracked', drawn' := PlanStep(w, t, baseUrl, spans, tracked, drawn);
      PlanFacts(w, t, baseUrl, spans[1..], tracked', drawn');
      assert spans[0] in spans;
      assert forall a :: a in add ==> Genuine(t, a) && LedRight(w, baseUrl, a);
    }
  }

  ghost predicate HasSpan(anchors: seq<Anchor>, s: Span) {
    exists a :: a in anchors && a.span == s
  }

  lemma HasSpanAdd(x: seq<Anchor>, y: seq<Anchor>, s: Span)
    ensures HasSpan(x + y, s) <==> HasSpan(x, s) || HasSpan(y, s)
  {
  }

  /** Exactly the safe URLs become links. */
  lemma {:induction false} SafeUrlsAreLinked(
    w: World, t: string, baseUrl: string, spans: seq<Span>, tracked: nat, drawn: nat, s: Span)
    requires InText(t, spans) && s.start <= s.end <= |t|
    ensures HasSpan(Plan(w, t, baseUrl, spans, tracked, drawn), s)
       <==> s in spans && IsSafeClickUrl(w, TrimPunctuation(t[s.start..s.end]))
  {
    if spans != [] {
      var add, tracked', drawn' := PlanStep(w, t, baseUrl, spans, tracked, drawn);
      SafeUrlsAreLinked(w, t, baseUrl, spans[1..], tracked', drawn', s);
      HasSpanAdd(add, Plan(w, t, baseUrl, spans[1..], tracked', drawn'), s);
      assert add != [] ==> add[0] in add;
      assert s in spans <==> s == spans[0] || s in spans[1..];
    }
  }

  // ---- Text and links of what is read ----

  lemma {:induction false} TextOfAdd(a: seq<Seen>, b: seq<Seen>)
    ensures TextOf(a + b) == TextOf(a) + TextOf(b)
    ensures HrefsOf(a + b) == HrefsOf(a) + HrefsOf(b) && ImagesOf(a + b) == ImagesOf(a) + ImagesOf(b)
  {
    if a == [] {
      assert a + b == b;
    } else {
      TextOfAdd(a[1..], b);
      assert (a + b)[1..] == a[1..] + b && (a + b)[0] == a[0];
      Assoc(if a[0].Glyph? then [a[0].c] else "", TextOf(a[1..]), TextOf(b));
      Assoc(if a[0].Link? then [a[0].href] else [], HrefsOf(a[1..]), HrefsOf(b));
      Assoc(if a[0].Image? then [a[0].src] else [], ImagesOf(a[1..]), ImagesOf(b));
    }
  }

  lemma {:induction false} TextOfGlyphs(s: string)
    ensures TextOf(Glyphs(s)) == s && HrefsOf(Glyphs(s)) == [] && ImagesOf(Glyphs(s)) == []
  {
    if s != "" {
      TextOfGlyphs(s[1..]);
    }
  }

  lemma TextOfLink(href: string, caption: string)
    ensures TextOf([Link(href)] + Glyphs(caption)) == caption
    ensures HrefsOf([Link(href)] + Glyphs(caption)) == [href] && ImagesOf([Link(href)] + Glyphs(caption)) == []
  {
    TextOfGlyphs(caption);
    assert ([Link(href)] + Glyphs(caption))[1..] == Glyphs(caption);
  }

  // ---- Line ends ----

  /** Text may be cut anywhere but between a CR and an LF. */
  predicate CutsClean(x: string, y: string) {
    x == "" || y == "" || x[|x| - 1] != '\r' || y[0] != '\n'
  }

  lemma {:induction false} NewlinesSplit(x: string, y: string)
    requires CutsClean(x, y)
    ensures Newlines(x + y) == Newlines(x) + Newlines(y)
    decreases |x|
  {
    if x == "" {
      assert x + y == y;
    } else {
      var k := if |x| >= 2 && x[0] == '\r' && x[1] == '\n' then 2 else 1;
      var first := if x[0] == '\r' then "\n" else [x[0]];
      NewlinesSplit(x[k..], y);
      assert (x + y)[k..] == x[k..] + y;
      assert Newlines(x) == first + Newlines(x[k..]);
      assert |x| == 1 && y != "" ==> (x + y)[1] == y[0];
      assert Newlines(x + y) == first + Newlines((x + y)[k..]);
      Assoc(first, Newlines(x[k..]), Newlines(y));
    }
  }

  lemma {:induction false} UrlHasNoLineEnds(x: string)
    requires AllUrlChars(x)
    ensures Newlines(x) == x
  {
    if x != "" {
      assert IsUrlChar(x[0]);
      UrlHasNoLineEnds(x[1..]);
    }
  }

  // ---- The text of the body ----

  /** A URL has no line ends, so cutting before or after it never parts a CR from its LF. */
  lemma CutsAroundUrl(t: string, last: nat, i: nat, k: nat)
    requires last <= i < k <= |t| && AllUrlChars(t[i..k])
    ensures CutsClean(t[last..i], t[i..]) && CutsClean(t[i..k], t[k..])
  {
    assert t[i] == t[i..k][0] && t[k - 1] == t[i..k][k - i - 1];
  }

  lemma TwoParts(t: string, last: nat, i: nat, k: nat)
    requires last <= i < k <= |t| && AllUrlChars(t[i..k])
    ensures Newlines(t[last..]) == Newlines(t[last..i]) + (t[i..k] + Newlines(t[k..]))
  {
    CutsAroundUrl(t, last, i, k);
    Cut(t, last, i);
    NewlinesSplit(t[last..i], t[i..]);
    Cut(t, i, k);
    NewlinesSplit(t[i..k], t[k..]);
    UrlHasNoLineEnds(t[i..k]);
  }

  lemma UrlTail(t: string, i: nat, j: nat, k: nat)
    requires i <= j <= k <= |t| && AllUrlChars(t[i..k])
    ensures t[i..k] == t[i..j] + t[j..k] && Newlines(t[j..k]) == t[j..k]
  {
    assert t[j..k] == t[i..k][j - i..];
    UrlHasNoLineEnds(t[j..k]);
  }

  lemma ThreeParts(t: string, last: nat, i: nat, j: nat, k: nat, url: string)
    requires last <= i < j <= k <= |t| && AllUrlChars(t[i..k]) && url == t[i..j]
    ensures Newlines(t[last..i]) + url + Newlines(t[j..k]) + Newlines(t[k..]) == Newlines(t[last..])
  {
    TwoParts(t, last, i, k);
    UrlTail(t, i, j, k);
    Assoc(Newlines(t[last..i]), t[i..j], t[j..k]);
    Assoc(Newlines(t[last..i]), t[i..k], Newlines(t[k..]));
  }

  /** What is seen: its text, where its links lead, and the images it loads. */
  ghost predicate Shows(seen: seq<Seen>, text: string, hrefs: seq<string>, images: seq<string>) {
    TextOf(seen) == text && HrefsOf(seen) == hrefs && ImagesOf(seen) == images
  }

  lemma ShowsThen(a: seq<Seen>, b: seq<Seen>, text: string, hrefs: seq<string>, images: seq<string>,
                  text': string, hrefs': seq<string>, images': seq<string>)
    requires Shows(a, text, hrefs, images) && Shows(b, text', hrefs', images')
    ensures Shows(a + b, text + text', hrefs + hrefs', images + images')
  {
    TextOfAdd(a, b);
  }

  lemma SeenAround(x: string, href: string, caption: string, y: string)
    ensures Shows(Glyphs(x) + ([Link(href)] + Glyphs(caption)) + Glyphs(y), x + caption + y, [href], [])
  {
    var link := [Link(href)] + Glyphs(caption);
    TextOfGlyphs(x);
    TextOfGlyphs(y);
    TextOfLink(href, caption);
    ShowsThen(Glyphs(x), link, x, [], [], caption, [href], []);
    ShowsThen(Glyphs(x) + link, Glyphs(y), x + caption, [href], [], y, [], []);
  }

  function Hrefs(anchors: seq<Anchor>): seq<string> {
    if anchors == [] then [] else [anchors[0].href] + Hrefs(anchors[1..])
  }

  lemma GenuineTarget(t: string, a: Anchor)
    requires Genuine(t, a)
    ensures 0 < |a.target| && a.span.start + |a.target| <= a.span.end
    ensures a.target == t[a.span.start..a.span.start + |a.target|] && AllUrlChars(t[a.span.start..a.span.end])
  {
    var u := t[a.span.start..a.span.end];
    TargetIsNotEmpty(t, a.span.start, a.span.end);
    TrimPunctuationStops(u);
    assert u[..|a.target|] == t[a.span.start..a.span.start + |a.target|];
  }

  lemma SamePieceSeen(seen: seq<Seen>, x: string, href: string, caption: string, y: string)
    requires seen == Glyphs(x) + ([Link(href)] + Glyphs(caption)) + Glyphs(y)
    ensures Shows(seen, x + caption + y, [href], [])
  {
    SeenAround(x, href, caption, y);
  }

  /** What is seen of the text from `last` to the end of a link. */
  lemma SeenAtAnchor(t: string, last: nat, a: Anchor, j: nat)
    requires last <= a.span.start && a.span.start + |a.target| == j <= a.span.end <= |t|
    ensures Shows(ExpectedAt(t, last, a),
                  Newlines(t[last..a.span.start]) + a.target + Newlines(t[j..a.span.end]), [a.href], [])
  {
    SamePieceSeen(ExpectedAt(t, last, a), Newlines(t[last..a.span.start]), a.href, a.target,
                  Newlines(t[j..a.span.end]));
  }

  lemma WrittenText(t: string, last: nat, a: Anchor) returns (text: string)
    requires last <= a.span.start && Genuine(t, a) && a.span.start + |a.target| <= a.span.end <= |t|
    ensures Shows(ExpectedAt(t, last, a), text, [a.href], [])
    ensures text + Newlines(t[a.span.end..]) == Newlines(t[last..])
  {
    var i, j, k := a.span.start, a.span.start + |a.target|, a.span.end;
    SeenAtAnchor(t, last, a, j);
    GenuineTarget(t, a);
    ThreeParts(t, last, i, j, k, a.target);
    text := Newlines(t[last..i]) + a.target + Newlines(t[j..k]);
  }

  lemma {:induction false} ExpectedText(t: string, last: nat, anchors: seq<Anchor>)
    requires last <= |t| && Placed(t, last, anchors) && AllGenuine(t, anchors)
    ensures Shows(Expected(t, last, anchors), Newlines(t[last..]), Hrefs(anchors), [])
    decreases |anchors|
  {
    if anchors == [] {
      TextOfGlyphs(Newlines(t[last..]));
    } else {
      var a := anchors[0];
      assert a in anchors;
      ExpectedText(t, a.span.end, anchors[1..]);
      var text := WrittenText(t, last, a);
      ShowsThen(ExpectedAt(t, last, a), Expected(t, a.span.end, anchors[1..]), text, [a.href], [],
                Newlines(t[a.span.end..]), Hrefs(anchors[1..]), []);
    }
  }

  // ---- The page ----

  function OneIfAny(url: string): seq<string> {
    if url == "" then [] else [url]
  }

  function FooterWords(unsubscribeUrl: string): string {
    if unsubscribeUrl == "" then "" else "To stop receiving emails from us, " + "unsubscribe here" + "."
  }

  lemma FooterText(unsubscribeUrl: string)
    ensures Shows(FooterSeen(unsubscribeUrl), FooterWords(unsubscribeUrl),
                  OneIfAny(unsubscribeUrl), [])
  {
    if unsubscribeUrl != "" {
      SeenAround(FOOTER_TEXT, unsubscribeUrl, FOOTER_LINK, ".");
    }
  }

  lemma PlanForFacts(w: World, t: string, baseUrl: string)
    ensures AllGenuine(t, PlanFor(w, t, baseUrl)) && AllLedRight(w, baseUrl, PlanFor(w, t, baseUrl))
  {
    LoopStarts(w, t, baseUrl);
    FindAllIsSound(t, 0);
    PlanFacts(w, t, baseUrl, FindAll(t, 0), 0, 0);
  }

  lemma UrlIsOneLine(x: string)
    requires AllUrlChars(x)
    ensures '\n' !in x
  {
    assert forall i :: 0 <= i < |x| ==> IsUrlChar(x[i]);
  }

  lemma TargetsAreOneLine(w: World, t: string, baseUrl: string)
    ensures forall a :: a in PlanFor(w, t, baseUrl) ==> '\n' !in a.target
  {
    PlanForFacts(w, t, baseUrl);
    forall a | a in PlanFor(w, t, baseUrl) ensures '\n' !in a.target {
      GenuineTarget(t, a);
      UrlIsOneLine(t[a.span.start..a.span.end]);
      assert a.target <= t[a.span.start..a.span.end];
    }
  }

  lemma PageIsExpected(w: World, t: string, trackingUrl: string, baseUrl: string, unsubscribeUrl: string)
    ensures Read(HtmlFor(w, t, trackingUrl, baseUrl, unsubscribeUrl))
         == Expected(t, 0, PlanFor(w, t, baseUrl)) + FooterSeen(unsubscribeUrl) + PixelSeen(trackingUrl)
  {
    var plan := PlanFor(w, t, baseUrl);
    TargetsAreOneLine(w, t, baseUrl);
    ReadsRendered(t, 0, plan);
    PageReads(RenderFrom(t, 0, plan), Expected(t, 0, plan), trackingUrl, unsubscribeUrl);
  }

  lemma BodyText(w: World, t: string, baseUrl: string)
    ensures Shows(Expected(t, 0, PlanFor(w, t, baseUrl)), Newlines(t), Hrefs(PlanFor(w, t, baseUrl)), [])
  {
    PlanForFacts(w, t, baseUrl);
    ExpectedText(t, 0, PlanFor(w, t, baseUrl));
    assert t[0..] == t;
  }

  lemma PixelMeans(trackingUrl: string)
    ensures Shows(PixelSeen(trackingUrl), "", [], OneIfAny(trackingUrl))
  {
  }

  lemma ThreeShown(seen: seq<Seen>, body: seq<Seen>, footer: seq<Seen>, pixel: seq<Seen>, text: string,
                   words: string, hrefs: seq<string>, out: seq<string>, images: seq<string>)
    requires seen == body + footer + pixel
    requires Shows(body, text, hrefs, []) && Shows(footer, words, out, []) && Shows(pixel, "", [], images)
    ensures Shows(seen, text + words, hrefs + out, images)
  {
    ShowsThen(body, footer, text, hrefs, [], words, out, []);
    ShowsThen(body + footer, pixel, text + words, hrefs + out, [], "", [], images);
    assert text + words + "" == text + words && hrefs + out + [] == hrefs + out && [] + images == images;
  }

  /** The reader sees the text that was written, its line ends made uniform, then the footer; the links seen are
      the planned ones, then the way to unsubscribe; and one image is loaded, from the tracking address. */
  lemma PageShowsTheText(w: World, t: string, trackingUrl: string, baseUrl: string, unsubscribeUrl: string)
    ensures Shows(Read(HtmlFor(w, t, trackingUrl, baseUrl, unsubscribeUrl)),
                  Newlines(t) + FooterWords(unsubscribeUrl),
                  Hrefs(PlanFor(w, t, baseUrl)) + OneIfAny(unsubscribeUrl), OneIfAny(trackingUrl))
  {
    BodyText(w, t, baseUrl);
    FooterText(unsubscribeUrl);
    PixelMeans(trackingUrl);
    PageIsExpected(w, t, trackingUrl, baseUrl, unsubscribeUrl);
    ThreeShown(Read(HtmlFor(w, t, trackingUrl, baseUrl, unsubscribeUrl)),
               Expected(t, 0, PlanFor(w, t, baseUrl)), FooterSeen(unsubscribeUrl), PixelSeen(trackingUrl),
               Newlines(t), FooterWords(unsubscribeUrl), Hrefs(PlanFor(w, t, baseUrl)),
               OneIfAny(unsubscribeUrl), OneIfAny(trackingUrl));
  }

  /** Every link stands on a URL of the text, shown without trailing punctuation, and leads where it should. */
  lemma LinksAreRight(w: World, t: string, baseUrl: string, a: Anchor)
    requires a in PlanFor(w, t, baseUrl)
    ensures SpanOk(t, 0, a.span) && a.span.start + |a.target| <= a.span.end
    ensures a.target == t[a.span.start..a.span.start + |a.target|] && a.target != ""
    ensures a.target[|a.target| - 1] !in {'.', ',', ';', ':', '!', '?', ')', ']', '}'}
    ensures forall i :: a.span.start + |a.target| <= i < a.span.end ==>
              t[i] in {'.', ',', ';', ':', '!', '?', ')', ']', '}'}
    ensures LedRight(w, baseUrl, a)
  {
    PlanForFacts(w, t, baseUrl);
    GenuineTarget(t, a);
    var u := t[a.span.start..a.span.end];
    OnlyPunctuationIsCut(u);
    assert forall i :: a.span.start <= i < a.span.end ==> t[i] == u[i - a.span.start];
  }

  /** No safe URL of the text is left unlinked, and nothing else is linked. */
  lemma SafeUrlsAreAllLinked(w: World, t: string, baseUrl: string, s: Span)
    requires s.start <= s.end <= |t|
    ensures HasSpan(PlanFor(w, t, baseUrl), s)
       <==> s in FindAll(t, 0) && w.parsesAsHttp(TrimSpace(TrimPunctuation(t[s.start..s.end])))
  {
    FindAllInText(t, 0);
    SafeUrlsAreLinked(w, t, baseUrl, FindAll(t, 0), 0, 0, s);
  }
}
