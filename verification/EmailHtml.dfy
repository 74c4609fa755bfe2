/** The HTML body of a customer email: URL scanning, link rewriting, escaping. */
module EmailHtml {
  import opened Basics
  import opened Text
  import opened Replacement

  // ---- Scanning ----

  /** A character the URL pattern `https?://[^\s<>"']+` accepts after the scheme. */
  predicate IsUrlChar(c: char) {
    c != '\t' && c != '\n' && c != '\U{000C}' && c != '\r' && c != ' ' && c != '<' && c != '>' && c != '"' && c != '\''
  }

  predicate SaysHttp(t: string, k: nat) {
    k + 4 <= |t| && t[k] == 'h' && t[k + 1] == 't' && t[k + 2] == 't' && t[k + 3] == 'p'
  }

  predicate SlashesAt(t: string, k: nat) {
    k + 3 <= |t| && t[k] == ':' && t[k + 1] == '/' && t[k + 2] == '/'
  }

  /** The length of "https://" or "http://" at a position, or 0. */
  function SchemeLength(t: string, k: nat): (n: nat)
    ensures n > 0 ==> k + n <= |t|
  {
    if SaysHttp(t, k) && k + 4 < |t| && t[k + 4] == 's' && SlashesAt(t, k + 5) then 8
    else if SaysHttp(t, k) && SlashesAt(t, k + 4) then 7
    else 0
  }

  /** The end of the longest run of URL characters from a position on. */
  function RunEnd(t: string, k: nat): (r: nat)
    requires k <= |t|
    ensures k <= r <= |t|
    decreases |t| - k
  {
    if k < |t| && IsUrlChar(t[k]) then RunEnd(t, k + 1) else k
  }

  /** The end of the pattern's match at a position; the position itself if there is none. */
  function MatchEnd(t: string, k: nat): (r: nat)
    requires k <= |t|
    ensures k <= r <= |t|
  {
    var scheme := SchemeLength(t, k);
    if scheme == 0 || RunEnd(t, k + scheme) == k + scheme then k else RunEnd(t, k + scheme)
  }

  datatype Span = Span(start: nat, end: nat)

  /** Leftmost non-overlapping matches from a position on. */
  function FindAll(t: string, from: nat): seq<Span>
    requires from <= |t|
    decreases |t| - from
  {
    if from == |t| then []
    else
      var end := MatchEnd(t, from);
      if end == from then FindAll(t, from + 1) else [Span(from, end)] + FindAll(t, end)
  }

  predicate AllUrlChars(s: string) {
    forall i :: 0 <= i < |s| ==> IsUrlChar(s[i])
  }

  predicate UrlCharsIn(t: string, i: nat, j: nat) {
    j <= |t| && forall k :: i <= k < j ==> IsUrlChar(t[k])
  }

  /** A whole URL of the pattern, said without scanning: a scheme, then at least one character. */
  predicate IsUrl(t: string, i: nat, j: nat) {
    0 < SchemeLength(t, i) < j - i && UrlCharsIn(t, i, j)
  }

  lemma {:induction false} RunIsMaximal(t: string, k: nat)
    requires k <= |t|
    ensures UrlCharsIn(t, k, RunEnd(t, k)) && (RunEnd(t, k) < |t| ==> !IsUrlChar(t[RunEnd(t, k)]))
    decreases |t| - k
  {
    if k < |t| && IsUrlChar(t[k]) {
      RunIsMaximal(t, k + 1);
    }
  }

  /** A match is a URL that cannot be extended. */
  lemma MatchIsUrl(t: string, k: nat)
    requires k <= |t|
    ensures var end := MatchEnd(t, k); end > k ==> IsUrl(t, k, end) && (end < |t| ==> !IsUrlChar(t[end]))
  {
    var scheme := SchemeLength(t, k);
    if scheme > 0 {
      RunIsMaximal(t, k + scheme);
      assert UrlCharsIn(t, k, k + scheme);
    }
  }

  /** Where some URL starts there is a match at least as long. */
  lemma MatchCovers(t: string, i: nat, j: nat)
    requires i < j && IsUrl(t, i, j)
    ensures j <= MatchEnd(t, i)
  {
    RunIsMaximal(t, i + SchemeLength(t, i));
  }

  predicate SpanOk(t: string, from: nat, s: Span) {
    && from <= s.start < s.end <= |t| && IsUrl(t, s.start, s.end)
    && (s.end < |t| ==> !IsUrlChar(t[s.end]))
  }

  ghost predicate AllFound(t: string, from: nat, spans: seq<Span>) {
    forall s :: s in spans ==> SpanOk(t, from, s)
  }

  /** The scan finds URLs only, each as long as it can be. */
  lemma {:induction false} FindAllIsSound(t: string, from: nat)
    requires from <= |t|
    ensures AllFound(t, from, FindAll(t, from))
    decreases |t| - from
  {
    if from < |t| {
      var end := MatchEnd(t, from);
      MatchIsUrl(t, from);
      FindAllIsSound(t, if end == from then from + 1 else end);
    }
  }

  ghost predicate Covered(spans: seq<Span>, i: nat, j: nat) {
    exists s :: s in spans && s.start <= i && j <= s.end
  }

  lemma CoveredMore(first: Span, spans: seq<Span>, i: nat, j: nat)
    requires Covered(spans, i, j) || (first.start <= i && j <= first.end)
    ensures Covered([first] + spans, i, j)
  {
  }

  /** The scan never goes past a URL without covering it: a match goes on to the first other character. */
  lemma {:induction false} ScanReaches(t: string, from: nat, i: nat, j: nat)
    requires from <= i < j <= |t| && IsUrl(t, i, j)
    ensures Covered(FindAll(t, from), i, j)
    decreases |t| - from
  {
    var end := MatchEnd(t, from);
    MatchIsUrl(t, from);
    if from == i {
      MatchCovers(t, i, j);
    }
    if end == from {
      ScanReaches(t, from + 1, i, j);
    } else {
      if i >= end {
        ScanReaches(t, end, i, j);
      }
      CoveredMore(Span(from, end), FindAll(t, end), i, j);
    }
  }

  /** And it misses none: every URL in the text lies inside a match. */
  lemma FindAllIsComplete(t: string, i: nat, j: nat)
    requires i < j <= |t| && IsUrl(t, i, j)
    ensures Covered(FindAll(t, 0), i, j)
  {
    ScanReaches(t, 0, i, j);
  }

  // ---- The same, from the text alone ----

  /** What ends a URL: white space as the pattern knows it, and the characters that end or quote HTML. */
  predicate EndsUrl(c: char) {
    || c == ' ' || c == '\t' || c == '\n' || c == '\r' || c == '\U{000C}'
    || c == '<' || c == '>' || c == '"' || c == '\''
  }

  /** One of the two schemes stands at `i`, `n` characters long. */
  predicate SchemeAt(t: string, i: nat, n: nat) {
    i + n <= |t| && t[i..i + n] == (if n == 8 then "https://" else "http://")
  }

  lemma SchemeIsRead(t: string, i: nat)
    ensures SchemeLength(t, i) == 8 <==> SchemeAt(t, i, 8)
    ensures SchemeLength(t, i) == 7 <==> SchemeAt(t, i, 7)
    ensures SchemeLength(t, i) in {0, 7, 8}
  {
    if i + 7 <= |t| {
      var s := t[i..i + 7];
      assert s == [s[0], s[1], s[2], s[3], s[4], s[5], s[6]];
      assert "http://" == ['h', 't', 't', 'p', ':', '/', '/'];
    }
    if i + 8 <= |t| {
      var s := t[i..i + 8];
      assert s == [s[0], s[1], s[2], s[3], s[4], s[5], s[6], s[7]];
      assert "https://" == ['h', 't', 't', 'p', 's', ':', '/', '/'];
    }
  }

  /** The span runs on from `from` to the first character that ends a URL. */
  predicate RunsOn(t: string, from: nat, end: nat) {
    && from < end <= |t| && (forall k :: from <= k < end ==> !EndsUrl(t[k]))
    && (end == |t| || EndsUrl(t[end]))
  }

  /** Wherever "http://" or "https://" is followed by a character that does not end a URL, that URL lies in a match
      that runs on to its end. */
  lemma EveryUrlIsFound(t: string, i: nat, n: nat) returns (s: Span)
    requires n in {7, 8} && SchemeAt(t, i, n) && i + n < |t| && !EndsUrl(t[i + n])
    ensures s in FindAll(t, 0) && s.start <= i && RunsOn(t, i + n, s.end)
  {
    SchemeIsRead(t, i);
    assert forall k :: i <= k < i + n ==> t[k] == t[i..i + n][k - i];
    FindAllIsComplete(t, i, i + n + 1);
    FindAllIsSound(t, 0);
    s :| s in FindAll(t, 0) && s.start <= i && i + n + 1 <= s.end;
  }

  /** And every match is one: it begins with one of the two schemes, and runs on from there. */
  lemma EveryMatchIsUrl(t: string, s: Span) returns (n: nat)
    requires s in FindAll(t, 0)
    ensures n in {7, 8} && SchemeAt(t, s.start, n) && RunsOn(t, s.start + n, s.end)
  {
    FindAllIsSound(t, 0);
    SchemeIsRead(t, s.start);
    n := SchemeLength(t, s.start);
  }

  // ---- Links ----

  /** The parts of the outside world the renderer uses: URL parsing, path escaping and random tokens. */
  datatype World = World(parsesAsHttp: string -> bool, pathEscape: string -> string, token: nat -> string)

  predicate IsPunctuation(c: char) {
    c == '.' || c == ',' || c == ';' || c == ':' || c == '!' || c == '?' || c == ')' || c == ']' || c == '}'
  }

  function TrimPunctuation(s: string): string {
    if s != "" && IsPunctuation(s[|s| - 1]) then TrimPunctuation(s[..|s| - 1]) else s
  }

  lemma {:induction false} TrimPunctuationStops(s: string)
    ensures TrimPunctuation(s) <= s
    ensures TrimPunctuation(s) != "" ==> !IsPunctuation(TrimPunctuation(s)[|TrimPunctuation(s)| - 1])
    ensures forall i :: 0 <= i < |s| && !IsPunctuation(s[i]) ==> i < |TrimPunctuation(s)|
  {
    if s != "" && IsPunctuation(s[|s| - 1]) {
      TrimPunctuationStops(s[..|s| - 1]);
    }
  }

  /** What is cut off is exactly the sentence punctuation at the end. */
  lemma OnlyPunctuationIsCut(s: string)
    ensures TrimPunctuation(s) <= s
    ensures forall i :: |TrimPunctuation(s)| <= i < |s| ==> s[i] in {'.', ',', ';', ':', '!', '?', ')', ']', '}'}
    ensures TrimPunctuation(s) != "" ==>
              TrimPunctuation(s)[|TrimPunctuation(s)| - 1] !in {'.', ',', ';', ':', '!', '?', ')', ']', '}'}
  {
    TrimPunctuationStops(s);
  }

  predicate IsSafeClickUrl(w: World, value: string) {
    w.parsesAsHttp(TrimSpace(value))
  }

  function TrimSlashes(s: string): string {
    if s != "" && s[|s| - 1] == '/' then TrimSlashes(s[..|s| - 1]) else s
  }

  lemma {:induction false} OnlySlashesAreCut(s: string)
    ensures TrimSlashes(s) <= s && (TrimSlashes(s) != "" ==> TrimSlashes(s)[|TrimSlashes(s)| - 1] != '/')
    ensures forall i :: |TrimSlashes(s)| <= i < |s| ==> s[i] == '/'
  {
    if s != "" && s[|s| - 1] == '/' {
      OnlySlashesAreCut(s[..|s| - 1]);
    }
  }

  function RouteUrl(w: World, baseUrl: string, prefix: string, token: string): string {
    var t, b := TrimSpace(token), TrimSlashes(TrimSpace(baseUrl));
    if t == "" || b == "" then "" else b + prefix + w.pathEscape(t)
  }

  const CLICK_ROUTE := "/api/email-messages/click/"

  function ClickUrl(w: World, baseUrl: string, token: string): string {
    RouteUrl(w, baseUrl, CLICK_ROUTE, token)
  }

  predicate InText(t: string, spans: seq<Span>) {
    forall i :: 0 <= i < |spans| ==> spans[i].start <= spans[i].end <= |t|
  }

  datatype TrackedLink = TrackedLink(clickToken: string, targetUrl: string)

  /** One link of the finished body. */
  datatype Anchor = Anchor(span: Span, target: string, href: string, token: Option<string>)

  const MAX_LINKS := 100

  /** How one safe URL is linked, with `tracked` links and `drawn` tokens already used. */
  function Choose(w: World, baseUrl: string, span: Span, target: string, tracked: nat, drawn: nat): (Anchor, nat) {
    if baseUrl == "" || tracked >= MAX_LINKS then (Anchor(span, target, target, None), drawn)
    else
      var token := w.token(drawn);
      var click := ClickUrl(w, baseUrl, token);
      (if click == "" then Anchor(span, target, target, None) else Anchor(span, target, click, Some(token)), drawn + 1)
  }

  function Count(a: Anchor): nat {
    if a.token.Some? then 1 else 0
  }

  /** The links to write for the remaining spans. */
  function Plan(w: World, t: string, baseUrl: string, spans: seq<Span>, tracked: nat, drawn: nat): seq<Anchor>
    requires InText(t, spans)
  {
    if spans == [] then []
    else
      var target := TrimPunctuation(t[spans[0].start..spans[0].end]);
      if !IsSafeClickUrl(w, target) then Plan(w, t, baseUrl, spans[1..], tracked, drawn)
      else
        var (a, drawn') := Choose(w, baseUrl, spans[0], target, tracked, drawn);
        [a] + Plan(w, t, baseUrl, spans[1..], tracked + Count(a), drawn')
  }

  function LinksOf(anchors: seq<Anchor>): seq<TrackedLink> {
    if anchors == [] then []
    else (if anchors[0].token.Some? then [TrackedLink(anchors[0].token.value, anchors[0].target)] else [])
         + LinksOf(anchors[1..])
  }

  const A_OPEN := "<a href=\""
  const A_END := "\">"
  const A_CLOSE := "</a>"

  function AnchorHtml(href: string, caption: string): string {
    A_OPEN + EscapeString(href) + A_END + EscapeString(caption) + A_CLOSE
  }

  /** The text from `last` up to the end of a link's span, with the link written into it. */
  function Written(t: string, last: nat, a: Anchor): string
    requires last <= a.span.start && a.span.start + |a.target| <= a.span.end <= |t|
  {
    OnePass(t[last..a.span.start]) + AnchorHtml(a.href, a.target) + OnePass(t[a.span.start + |a.target|..a.span.end])
  }

  /** Links lie in the text, in order, each at the start of its own span. */
  predicate Placed(t: string, last: nat, anchors: seq<Anchor>)
    decreases |anchors|
  {
    anchors != [] ==>
      var a := anchors[0];
      && last <= a.span.start && a.span.start + |a.target| <= a.span.end <= |t|
      && Placed(t, a.span.end, anchors[1..])
  }

  /** The body text from `last` on, with the planned links written into it. */
  function RenderFrom(t: string, last: nat, anchors: seq<Anchor>): string
    requires last <= |t|
    requires Placed(t, last, anchors)
    decreases |anchors|
  {
    if anchors == [] then OnePass(t[last..])
    else
      Written(t, last, anchors[0]) + RenderFrom(t, anchors[0].span.end, anchors[1..])
  }

  const FOOTER_STYLE := "margin-top:24px;" + "font-size:12px;" + "color:#666"
  const FOOTER_TAG := "<p style=\"" + FOOTER_STYLE + "\">"
  const FOOTER_TEXT := "To stop receiving emails from us, "
  const FOOTER_LINK := "unsubscribe here"
  const FOOTER_CLOSE := "</p>"
  const PIXEL_OPEN := "<img src=\""
  const PIXEL_SIZE := "\" width=\"1\"" + " height=\"1\" alt=\"\"" + " style=\"display:none\" /"
  const PIXEL_CLOSE := PIXEL_SIZE + ">"
  const PAGE_OPEN := "<!doctype html>" + "<html>" + "<body>" + "<div>"
  const PAGE_CLOSE := "</body>" + "</html>"

  function Footer(unsubscribeUrl: string): string {
    if unsubscribeUrl == "" then ""
    else FOOTER_TAG + FOOTER_TEXT + AnchorHtml(unsubscribeUrl, FOOTER_LINK) + "." + FOOTER_CLOSE
  }

  function Pixel(trackingUrl: string): string {
    if trackingUrl == "" then ""
    else PIXEL_OPEN + EscapeString(trackingUrl) + PIXEL_CLOSE
  }

  function Page(body: string, trackingUrl: string, unsubscribeUrl: string): string {
    PAGE_OPEN + (body + Footer(unsubscribeUrl)) + "</div>" + Pixel(trackingUrl) + PAGE_CLOSE
  }

  predicate Spaced(t: string, last: nat, spans: seq<Span>)
    decreases |spans|
  {
    spans != [] ==> last <= spans[0].start < spans[0].end <= |t| && Spaced(t, spans[0].end, spans[1..])
  }

  lemma {:induction false} FindAllIsSpaced(t: string, from: nat, last: nat)
    requires last <= from <= |t|
    ensures Spaced(t, last, FindAll(t, from))
    decreases |t| - from
  {
    if from < |t| {
      var end := MatchEnd(t, from);
      if end == from {
        FindAllIsSpaced(t, from + 1, last);
      } else {
        FindAllIsSpaced(t, end, end);
      }
    }
  }

  lemma SpacedFromLater(t: string, last: nat, later: nat, spans: seq<Span>)
    requires last <= later && Spaced(t, later, spans)
    ensures Spaced(t, last, spans)
  {
  }

  lemma {:induction false} PlanIsPlaced(
    w: World, t: string, baseUrl: string, spans: seq<Span>, tracked: nat, drawn: nat, last: nat)
    requires InText(t, spans) && Spaced(t, last, spans)
    ensures Placed(t, last, Plan(w, t, baseUrl, spans, tracked, drawn))
  {
    if spans != [] {
      var span := spans[0];
      var target := TrimPunctuation(t[span.start..span.end]);
      TrimPunctuationStops(t[span.start..span.end]);
      if !IsSafeClickUrl(w, target) {
        SpacedFromLater(t, last, span.end, spans[1..]);
        PlanIsPlaced(w, t, baseUrl, spans[1..], tracked, drawn, last);
      } else {
        var (a, drawn') := Choose(w, baseUrl, span, target, tracked, drawn);
        PlanIsPlaced(w, t, baseUrl, spans[1..], tracked + Count(a), drawn', span.end);
      }
    }
  }

  class StringBuilder {
    var text: string

    constructor ()
      ensures text == ""
    {
      text := "";
    }

    method WriteString(s: string)
      modifies this
      ensures text == old(text) + s
    {
      text := text + s;
    }
  }

  method AppendEscapedEmailHtml(builder: StringBuilder, value: string)
    modifies builder
    ensures builder.text == old(builder.text) + OnePass(value)
  {
    var escaped := EscapeString(value);
    escaped := ReplaceAll(escaped, "\r\n", "\n");
    escaped := ReplaceAll(escaped, "\r", "\n");
    escaped := ReplaceAll(escaped, "\n", BREAK);
    ChainIsOnePass(value);
    builder.WriteString(escaped);
  }

  method SplitEmailBodyUrl(value: string) returns (target: string, trailing: string)
    ensures target == TrimPunctuation(value) && value == target + trailing
  {
    target := TrimPunctuation(value);
    TrimPunctuationStops(value);
    if target == "" {
      return "", value;
    }
    trailing := value[|target|..];
  }

  /** A URL keeps at least its scheme when trailing punctuation is trimmed. */
  lemma TargetIsNotEmpty(t: string, i: nat, j: nat)
    requires i < j <= |t| && IsUrl(t, i, j)
    ensures |TrimPunctuation(t[i..j])| >= SchemeLength(t, i)
  {
    TrimPunctuationStops(t[i..j]);
    assert t[i..j][SchemeLength(t, i) - 1] == '/';
  }

  lemma UnfoldRender(t: string, last: nat, a: Anchor, rest: seq<Anchor>)
    requires last <= a.span.start && a.span.start + |a.target| <= a.span.end <= |t|
    requires Placed(t, a.span.end, rest)
    ensures Placed(t, last, [a] + rest)
    ensures RenderFrom(t, last, [a] + rest) == Written(t, last, a) + RenderFrom(t, a.span.end, rest)
    ensures LinksOf([a] + rest) == LinksOf([a]) + LinksOf(rest)
  {
  }

  lemma ThreeAppends(s: string, a: string, b: string, c: string, whole: string)
    requires whole == a + b + c
    ensures s + a + b + c == s + whole
  {
    Assoc(s, a, b);
    Assoc(s, a + b, c);
  }

  /** One link: the text before it, the link itself, and the punctuation trimmed from it. */
  method WriteLink(body: StringBuilder, t: string, last: nat, a: Anchor, trailing: string)
    requires last <= a.span.start && a.span.start + |a.target| <= a.span.end <= |t|
    requires trailing == t[a.span.start + |a.target|..a.span.end]
    modifies body
    ensures body.text == old(body.text) + Written(t, last, a)
  {
    ghost var before, link := OnePass(t[last..a.span.start]), AnchorHtml(a.href, a.target);
    ThreeAppends(body.text, before, link, OnePass(trailing), Written(t, last, a));
    AppendEscapedEmailHtml(body, t[last..a.span.start]);
    body.WriteString(AnchorHtml(a.href, a.target));
    AppendEscapedEmailHtml(body, trailing);
  }

  /** Decide how one safe URL is linked: tracked while tokens and room last, otherwise straight to its target. */
  method PlanLink(w: World, baseUrl: string, loc: Span, target: string, links: seq<TrackedLink>, drawn: nat)
    returns (anchor: Anchor, links': seq<TrackedLink>, drawn': nat)
    ensures (anchor, drawn') == Choose(w, baseUrl, loc, target, |links|, drawn)
    ensures links' == links + LinksOf([anchor]) && |links'| == |links| + Count(anchor)
  {
    anchor := Anchor(loc, target, target, None);
    links', drawn' := links, drawn;
    if baseUrl != "" && |links| < MAX_LINKS {
      var clickToken := w.token(drawn);
      drawn' := drawn + 1;
      var click := ClickUrl(w, baseUrl, clickToken);
      if click != "" {
        anchor := anchor.(href := click, token := Some(clickToken));
        links' := links + [TrackedLink(clickToken, target)];
      }
    }
    assert [anchor][1..] == [];
  }

  lemma UnfoldPlan(w: World, t: string, baseUrl: string, loc: Span, later: seq<Span>, tracked: nat, drawn: nat)
    requires InText(t, [loc] + later) && loc.start <= loc.end <= |t|
    ensures InText(t, later)
    ensures var target := TrimPunctuation(t[loc.start..loc.end]);
            Plan(w, t, baseUrl, [loc] + later, tracked, drawn) ==
              if !IsSafeClickUrl(w, target) then Plan(w, t, baseUrl, later, tracked, drawn)
              else
                var (a, drawn') := Choose(w, baseUrl, loc, target, tracked, drawn);
                [a] + Plan(w, t, baseUrl, later, tracked + Count(a), drawn')
  {
    var spans := [loc] + later;
    assert spans[0] == loc && spans[1..] == later;
    assert forall i :: 0 <= i < |later| ==> later[i] == spans[i + 1];
  }

  /** What has been written and what is still to come always make up the whole. */
  ghost predicate LoopOk(w: World, t: string, baseUrl: string, html: string, all: seq<TrackedLink>, text: string,
                         links: seq<TrackedLink>, drawn: nat, last: nat, spans: seq<Span>)
  {
    && InText(t, spans) && Spaced(t, last, spans) && last <= |t|
    && var rest := Plan(w, t, baseUrl, spans, |links|, drawn);
       Placed(t, last, rest) && html == text + RenderFrom(t, last, rest) && all == links + LinksOf(rest)
  }

  lemma LoopSkips(w: World, t: string, baseUrl: string, html: string, all: seq<TrackedLink>, text: string,
                  links: seq<TrackedLink>, drawn: nat, last: nat, loc: Span, later: seq<Span>)
    requires LoopOk(w, t, baseUrl, html, all, text, links, drawn, last, [loc] + later)
    requires loc.start <= loc.end <= |t| && !IsSafeClickUrl(w, TrimPunctuation(t[loc.start..loc.end]))
    ensures LoopOk(w, t, baseUrl, html, all, text, links, drawn, last, later)
  {
    assert ([loc] + later)[1..] == later;
    UnfoldPlan(w, t, baseUrl, loc, later, |links|, drawn);
    SpacedFromLater(t, last, loc.end, later);
  }

  lemma LoopEnds(w: World, t: string, baseUrl: string, html: string, all: seq<TrackedLink>, text: string,
                 links: seq<TrackedLink>, drawn: nat, last: nat, none: seq<Span>)
    requires LoopOk(w, t, baseUrl, html, all, text, links, drawn, last, none) && none == []
    ensures html == text + OnePass(t[last..]) && all == links
  {
  }

  lemma LinkFits(w: World, t: string, baseUrl: string, last: nat, loc: Span, later: seq<Span>,
                 anchor: Anchor, tracked: nat, drawn: nat)
    requires InText(t, later) && Spaced(t, last, [loc] + later) && loc.start <= loc.end <= |t|
    requires anchor.span == loc && anchor.target == TrimPunctuation(t[loc.start..loc.end])
    ensures last <= loc.start && loc.start + |anchor.target| <= loc.end <= |t| && Spaced(t, loc.end, later)
    ensures Placed(t, loc.end, Plan(w, t, baseUrl, later, tracked, drawn))
  {
    assert ([loc] + later)[1..] == later;
    TrimPunctuationStops(t[loc.start..loc.end]);
    PlanIsPlaced(w, t, baseUrl, later, tracked, drawn, loc.end);
  }

  lemma LoopLinks(w: World, t: string, baseUrl: string, html: string, all: seq<TrackedLink>, text: string,
                  links: seq<TrackedLink>, drawn: nat, last: nat, loc: Span, later: seq<Span>,
                  anchor: Anchor, links': seq<TrackedLink>, drawn': nat)
    requires LoopOk(w, t, baseUrl, html, all, text, links, drawn, last, [loc] + later)
    requires loc.start <= loc.end <= |t| && InText(t, [loc] + later) && InText(t, later)
    requires anchor.span == loc && anchor.target == TrimPunctuation(t[loc.start..loc.end])
    requires links' == links + LinksOf([anchor])
    requires Plan(w, t, baseUrl, [loc] + later, |links|, drawn)
          == [anchor] + Plan(w, t, baseUrl, later, |links'|, drawn')
    ensures last <= loc.start && loc.start + |anchor.target| <= loc.end <= |t|
    ensures LoopOk(w, t, baseUrl, html, all, text + Written(t, last, anchor), links', drawn', loc.end, later)
  {
    LinkFits(w, t, baseUrl, last, loc, later, anchor, |links'|, drawn');
    var rest := Plan(w, t, baseUrl, later, |links'|, drawn');
    UnfoldRender(t, last, anchor, rest);
    Assoc(text, Written(t, last, anchor), RenderFrom(t, loc.end, rest));
    Assoc(links, LinksOf([anchor]), LinksOf(rest));
  }

  lemma {:induction false} FindAllInText(t: string, from: nat)
    requires from <= |t|
    ensures InText(t, FindAll(t, from))
    decreases |t| - from
  {
    if from < |t| {
      var end := MatchEnd(t, from);
      FindAllInText(t, if end == from then from + 1 else end);
    }
  }

  lemma LoopStarts(w: World, t: string, baseUrl: string)
    ensures InText(t, FindAll(t, 0))
    ensures var plan := Plan(w, t, baseUrl, FindAll(t, 0), 0, 0);
            && Placed(t, 0, plan)
            && LoopOk(w, t, baseUrl, RenderFrom(t, 0, plan), LinksOf(plan), "", [], 0, 0, FindAll(t, 0))
  {
    FindAllInText(t, 0);
    FindAllIsSpaced(t, 0, 0);
    PlanIsPlaced(w, t, baseUrl, FindAll(t, 0), 0, 0, 0);
  }

  method SplitMatch(t: string, loc: Span) returns (target: string, trailing: string)
    requires SpanOk(t, 0, loc)
    ensures target == TrimPunctuation(t[loc.start..loc.end]) && target != ""
    ensures loc.start + |target| <= loc.end && trailing == t[loc.start + |target|..loc.end]
  {
    var candidate := t[loc.start..loc.end];
    TargetIsNotEmpty(t, loc.start, loc.end);
    target, trailing := SplitEmailBodyUrl(candidate);
    assert trailing == candidate[|target|..];
  }

  /** The part of a turn that writes a link. */
  method LinkMatch(w: World, t: string, baseUrl: string, body: StringBuilder, links: seq<TrackedLink>, drawn: nat,
                   last: nat, loc: Span, target: string, trailing: string,
                   ghost html: string, ghost all: seq<TrackedLink>, ghost later: seq<Span>)
    returns (links': seq<TrackedLink>, drawn': nat)
    requires loc.start <= loc.end <= |t| && target == TrimPunctuation(t[loc.start..loc.end])
    requires IsSafeClickUrl(w, target)
    requires loc.start + |target| <= loc.end && trailing == t[loc.start + |target|..loc.end]
    requires LoopOk(w, t, baseUrl, html, all, body.text, links, drawn, last, [loc] + later)
    modifies body
    ensures LoopOk(w, t, baseUrl, html, all, body.text, links', drawn', loc.end, later)
  {
    var anchor;
    UnfoldPlan(w, t, baseUrl, loc, later, |links|, drawn);
    anchor, links', drawn' := PlanLink(w, baseUrl, loc, target, links, drawn);
    LoopLinks(w, t, baseUrl, html, all, body.text, links, drawn, last, loc, later, anchor, links', drawn');
    WriteLink(body, t, last, anchor, trailing);
  }

  /** One turn of the loop over the matches. */
  method HandleMatch(w: World, t: string, baseUrl: string, body: StringBuilder, links: seq<TrackedLink>, drawn: nat,
                     last: nat, loc: Span, ghost html: string, ghost all: seq<TrackedLink>, ghost later: seq<Span>)
    returns (links': seq<TrackedLink>, drawn': nat, last': nat)
    requires SpanOk(t, 0, loc)
    requires LoopOk(w, t, baseUrl, html, all, body.text, links, drawn, last, [loc] + later)
    modifies body
    ensures LoopOk(w, t, baseUrl, html, all, body.text, links', drawn', last', later)
  {
    if loc.start < last {
      assert false;
    }
    var target, trailing := SplitMatch(t, loc);
    if target == "" || !IsSafeClickUrl(w, target) {
      LoopSkips(w, t, baseUrl, html, all, body.text, links, drawn, last, loc, later);
      return links, drawn, last;
    }
    links', drawn' :=
      LinkMatch(w, t, baseUrl, body, links, drawn, last, loc, target, trailing, html, all, later);
    last' := loc.end;
  }

  /** The links planned for a text. */
  function PlanFor(w: World, t: string, baseUrl: string): (plan: seq<Anchor>)
    ensures Placed(t, 0, plan)
  {
    LoopStarts(w, t, baseUrl);
    Plan(w, t, baseUrl, FindAll(t, 0), 0, 0)
  }

  /** The finished page for a text. */
  function HtmlFor(w: World, t: string, trackingUrl: string, baseUrl: string, unsubscribeUrl: string): string {
    Page(RenderFrom(t, 0, PlanFor(w, t, baseUrl)), trackingUrl, unsubscribeUrl)
  }

  /** The loop over the matches: the body text and the tracked links, in one pass. */
  method WriteBody(w: World, textBody: string, trackingBaseUrl: string, body: StringBuilder)
    returns (links: seq<TrackedLink>)
    requires body.text == ""
    modifies body
    ensures body.text == RenderFrom(textBody, 0, PlanFor(w, textBody, trackingBaseUrl))
    ensures links == LinksOf(PlanFor(w, textBody, trackingBaseUrl))
  {
    links := [];
    var last: nat := 0;
    var drawn: nat := 0;
    var spans := FindAll(textBody, 0);
    LoopStarts(w, textBody, trackingBaseUrl);
    FindAllIsSound(textBody, 0);
    ghost var plan := Plan(w, textBody, trackingBaseUrl, spans, 0, 0);
    ghost var html, all := RenderFrom(textBody, 0, plan), LinksOf(plan);
    assert spans[0..] == spans;
    for k := 0 to |spans|
      invariant LoopOk(w, textBody, trackingBaseUrl, html, all, body.text, links, drawn, last, spans[k..])
    {
      assert spans[k..] == [spans[k]] + spans[k + 1..];
      links, drawn, last :=
        HandleMatch(w, textBody, trackingBaseUrl, body, links, drawn, last, spans[k], html, all, spans[k + 1..]);
    }
    LoopEnds(w, textBody, trackingBaseUrl, html, all, body.text, links, drawn, last, spans[|spans|..]);
    AppendEscapedEmailHtml(body, textBody[last..]);
  }

  method WriteFooter(body: StringBuilder, unsubscribeUrl: string)
    modifies body
    ensures body.text == old(body.text) + Footer(unsubscribeUrl)
  {
    if unsubscribeUrl != "" {
      body.WriteString(FOOTER_TAG + FOOTER_TEXT + AnchorHtml(unsubscribeUrl, FOOTER_LINK) + "." + FOOTER_CLOSE);
    }
  }

  method TrackedHtmlBody(
    w: World, textBody: string, trackingUrl: string, trackingBaseUrl: string, unsubscribeUrl: string)
    returns (html: string, links: seq<TrackedLink>)
    ensures html == HtmlFor(w, textBody, trackingUrl, trackingBaseUrl, unsubscribeUrl)
    ensures links == LinksOf(PlanFor(w, textBody, trackingBaseUrl))
  {
    var body := new StringBuilder();
    links := WriteBody(w, textBody, trackingBaseUrl, body);
    WriteFooter(body, unsubscribeUrl);
    var trackingPixel := "";
    if trackingUrl != "" {
      trackingPixel := PIXEL_OPEN + EscapeString(trackingUrl) + PIXEL_CLOSE;
    }
    html := PAGE_OPEN + body.text + "</div>" + trackingPixel + PAGE_CLOSE;
  }
}
