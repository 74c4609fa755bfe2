/** The tracked links of an email: which there are, how they are stored, and where a click on one leads. */
module EmailLinks {
  import opened Basics
  import opened Text
  import opened EmailHtml
  import opened EmailMeaning

  // ---- Which links are tracked ----

  /** Neither the address nor any token is blank. */
  ghost predicate Usable(w: World, baseUrl: string) {
    TrimSlashes(TrimSpace(baseUrl)) != "" && forall n :: TrimSpace(w.token(n)) != ""
  }

  lemma {:induction false} LinksOfAdd(x: seq<Anchor>, y: seq<Anchor>)
    ensures LinksOf(x + y) == LinksOf(x) + LinksOf(y)
  {
    if x == [] {
      assert x + y == y;
    } else {
      LinksOfAdd(x[1..], y);
      assert (x + y)[1..] == x[1..] + y && (x + y)[0] == x[0];
      var first := if x[0].token.Some? then [TrackedLink(x[0].token.value, x[0].target)] else [];
      Assoc(first, LinksOf(x[1..]), LinksOf(y));
    }
  }

  lemma {:induction false} AtMostMaxLinks(
    w: World, t: string, baseUrl: string, spans: seq<Span>, tracked: nat, drawn: nat)
    requires InText(t, spans) && tracked <= MAX_LINKS
    ensures tracked + |LinksOf(Plan(w, t, baseUrl, spans, tracked, drawn))| <= MAX_LINKS
  {
    if spans != [] {
      var add, tracked', drawn' := PlanStep(w, t, baseUrl, spans, tracked, drawn);
      LinksOfAdd(add, Plan(w, t, baseUrl, spans[1..], tracked', drawn'));
      assert |add| <= 1 && |LinksOf(add)| <= 1;
      AtMostMaxLinks(w, t, baseUrl, spans[1..], tracked', drawn');
    }
  }

  lemma {:induction false} LinkHasAnchor(anchors: seq<Anchor>, link: TrackedLink)
    requires link in LinksOf(anchors)
    ensures exists a :: a in anchors && a.token == Some(link.clickToken) && a.target == link.targetUrl
  {
    var a := anchors[0];
    if a.token.Some? && link == TrackedLink(a.token.value, a.target) {
      assert a in anchors;
    } else {
      LinkHasAnchor(anchors[1..], link);
    }
  }

  /** `plan` tracks its first links, up to the limit, each with the next token. */
  ghost predicate TracksFirst(w: World, plan: seq<Anchor>, links: seq<TrackedLink>, from: nat) {
    && from <= 100
    && |links| == (if |plan| <= 100 - from then |plan| else 100 - from)
    && (forall k :: 0 <= k < |links| ==>
          plan[k].token == Some(w.token(from + k)) && links[k] == TrackedLink(w.token(from + k), plan[k].target))
    && (forall k :: |links| <= k < |plan| ==> plan[k].token == None)
  }

  lemma TracksFirstStep(w: World, a: Anchor, plan: seq<Anchor>, links: seq<TrackedLink>, from: nat)
    requires from < MAX_LINKS && TracksFirst(w, plan, links, from + 1) && a.token == Some(w.token(from))
    ensures TracksFirst(w, [a] + plan, [TrackedLink(a.token.value, a.target)] + links, from)
  {
  }

  lemma TracksNone(w: World, a: Anchor, plan: seq<Anchor>, links: seq<TrackedLink>, from: nat)
    requires from == MAX_LINKS && TracksFirst(w, plan, links, from) && a.token == None
    ensures TracksFirst(w, [a] + plan, links, from)
  {
  }

  lemma TracksMore(w: World, a: Anchor, plan: seq<Anchor>, from: nat)
    requires from <= MAX_LINKS && a.token == (if from < MAX_LINKS then Some(w.token(from)) else None)
    requires TracksFirst(w, plan, LinksOf(plan), from + Count(a))
    ensures TracksFirst(w, [a] + plan, LinksOf([a] + plan), from)
  {
    assert ([a] + plan)[1..] == plan;
    if from < MAX_LINKS {
      TracksFirstStep(w, a, plan, LinksOf(plan), from);
    } else {
      assert [] + LinksOf(plan) == LinksOf(plan);
      TracksNone(w, a, plan, LinksOf(plan), from);
    }
  }

  predicate HasClick(w: World, baseUrl: string, n: nat) {
    ClickUrl(w, baseUrl, w.token(n)) != ""
  }

  ghost predicate AllClick(w: World, baseUrl: string) {
    baseUrl != "" && forall n :: HasClick(w, baseUrl, n)
  }

  lemma UsableClicks(w: World, baseUrl: string)
    requires Usable(w, baseUrl)
    ensures AllClick(w, baseUrl)
  {
  }

  /** With usable tokens, each link takes the next token while there is room. */
  lemma TrackedStep(w: World, t: string, baseUrl: string, spans: seq<Span>, from: nat, drawn: nat)
    returns (add: seq<Anchor>, from': nat, drawn': nat)
    requires spans != [] && InText(t, spans) && AllClick(w, baseUrl) && (from < MAX_LINKS ==> drawn == from)
    ensures InText(t, spans[1..])
    ensures var rest := Plan(w, t, baseUrl, spans[1..], from', drawn');
            Plan(w, t, baseUrl, spans, from, drawn) == if add == [] then rest else [add[0]] + rest
    ensures from' < MAX_LINKS ==> drawn' == from'
    ensures if add == [] then from' == from
            else |add| == 1 && from' == from + Count(add[0])
                 && add[0].token == (if from < MAX_LINKS then Some(w.token(from)) else None)
  {
    add, from', drawn' := PlanStep(w, t, baseUrl, spans, from, drawn);
    assert HasClick(w, baseUrl, drawn);
    if add != [] {
      assert add == [add[0]] && add[1..] == [];
    } else {
      assert forall p: seq<Anchor> :: [] + p == p;
    }
  }

  lemma {:induction false} FirstLinksAreTracked(
    w: World, t: string, baseUrl: string, spans: seq<Span>, from: nat, drawn: nat)
    requires InText(t, spans) && AllClick(w, baseUrl) && from <= MAX_LINKS && (from < MAX_LINKS ==> drawn == from)
    ensures var plan := Plan(w, t, baseUrl, spans, from, drawn); TracksFirst(w, plan, LinksOf(plan), from)
  {
    if spans != [] {
      var add, from', drawn' := TrackedStep(w, t, baseUrl, spans, from, drawn);
      var rest := Plan(w, t, baseUrl, spans[1..], from', drawn');
      FirstLinksAreTracked(w, t, baseUrl, spans[1..], from', drawn');
      if add != [] {
        TracksMore(w, add[0], rest, from);
      }
    }
  }

  /** Without a usable address nothing is tracked. */
  lemma {:induction false} NothingTracked(
    w: World, t: string, baseUrl: string, spans: seq<Span>, tracked: nat, drawn: nat)
    requires InText(t, spans) && TrimSlashes(TrimSpace(baseUrl)) == ""
    ensures LinksOf(Plan(w, t, baseUrl, spans, tracked, drawn)) == []
  {
    if spans != [] {
      var add, tracked', drawn' := PlanStep(w, t, baseUrl, spans, tracked, drawn);
      LinksOfAdd(add, Plan(w, t, baseUrl, spans[1..], tracked', drawn'));
      NothingTracked(w, t, baseUrl, spans[1..], tracked', drawn');
    }
  }

  /** With usable tokens the first hundred links of the email are tracked, in order, and no others. */
  lemma TrackedLinksMatch(w: World, t: string, baseUrl: string)
    ensures |LinksOf(PlanFor(w, t, baseUrl))| <= 100
    ensures Usable(w, baseUrl) ==> TracksFirst(w, PlanFor(w, t, baseUrl), LinksOf(PlanFor(w, t, baseUrl)), 0)
    ensures TrimSlashes(TrimSpace(baseUrl)) == "" ==> LinksOf(PlanFor(w, t, baseUrl)) == []
  {
    FindAllInText(t, 0);
    AtMostMaxLinks(w, t, baseUrl, FindAll(t, 0), 0, 0);
    if Usable(w, baseUrl) {
      UsableClicks(w, baseUrl);
      FirstLinksAreTracked(w, t, baseUrl, FindAll(t, 0), 0, 0);
    }
    if TrimSlashes(TrimSpace(baseUrl)) == "" {
      NothingTracked(w, t, baseUrl, FindAll(t, 0), 0, 0);
    }
  }

  // ---- How links are stored ----

  function Cleaned(link: TrackedLink): TrackedLink {
    TrackedLink(TrimSpace(link.clickToken), TrimSpace(link.targetUrl))
  }

  predicate Storable(link: TrackedLink, seen: set<string>) {
    TrimSpace(link.clickToken) != "" && TrimSpace(link.targetUrl) != "" && TrimSpace(link.clickToken) !in seen
  }

  function Stored(input: seq<TrackedLink>, seen: set<string>, room: nat): seq<TrackedLink> {
    if input == [] || room == 0 then []
    else if !Storable(input[0], seen) then Stored(input[1..], seen, room)
    else [Cleaned(input[0])] + Stored(input[1..], seen + {TrimSpace(input[0].clickToken)}, room - 1)
  }

  lemma StoredUnfolds(input: seq<TrackedLink>, k: nat, seen: set<string>, room: nat)
    requires k < |input| && room > 0
    ensures Stored(input[k..], seen, room)
         == if !Storable(input[k], seen) then Stored(input[k + 1..], seen, room)
            else [Cleaned(input[k])] + Stored(input[k + 1..], seen + {TrimSpace(input[k].clickToken)}, room - 1)
  {
    assert input[k..][1..] == input[k + 1..];
  }

  /** What is still to come after storing one link. */
  lemma StoredShifts(input: seq<TrackedLink>, k: nat, seen: set<string>, room: nat, links: seq<TrackedLink>)
    requires k < |input| && room > 0 && Storable(input[k], seen)
    ensures links + Stored(input[k..], seen, room)
         == links + [Cleaned(input[k])]
            + Stored(input[k + 1..], seen + {TrimSpace(input[k].clickToken)}, room - 1)
  {
    StoredUnfolds(input, k, seen, room);
    Assoc(links, [Cleaned(input[k])], Stored(input[k + 1..], seen + {TrimSpace(input[k].clickToken)}, room - 1));
  }

  method SanitizedTrackedLinks(input: seq<TrackedLink>) returns (links: seq<TrackedLink>)
    ensures links == Stored(input, {}, MAX_LINKS)
  {
    links := [];
    var seen: set<string> := {};
    ghost var all := Stored(input, {}, MAX_LINKS);
    assert input[0..] == input;
    for k := 0 to |input|
      invariant |links| < MAX_LINKS
      invariant all == links + Stored(input[k..], seen, MAX_LINKS - |links|)
    {
      StoredUnfolds(input, k, seen, MAX_LINKS - |links|);
      var clickToken, targetUrl := TrimSpace(input[k].clickToken), TrimSpace(input[k].targetUrl);
      if clickToken == "" || targetUrl == "" || clickToken in seen {
        continue;
      }
      StoredShifts(input, k, seen, MAX_LINKS - |links|, links);
      seen := seen + {clickToken};
      links := links + [TrackedLink(clickToken, targetUrl)];
      if |links| >= MAX_LINKS {
        break;
      }
    }
  }

  // ---- Which links are stored ----

  /** A link that says something, under a token that no link before it has used to say something. */
  predicate FirstOfItsToken(input: seq<TrackedLink>, k: nat) {
    && k < |input| && TrimSpace(input[k].clickToken) != "" && TrimSpace(input[k].targetUrl) != ""
    && forall i :: 0 <= i < k && TrimSpace(input[i].clickToken) == TrimSpace(input[k].clickToken) ==>
         TrimSpace(input[i].targetUrl) == ""
  }

  function Firsts(input: seq<TrackedLink>, k: nat): seq<TrackedLink>
    decreases |input| - k
  {
    if k >= |input| then []
    else
      (if FirstOfItsToken(input, k)
       then [TrackedLink(TrimSpace(input[k].clickToken), TrimSpace(input[k].targetUrl))] else [])
      + Firsts(input, k + 1)
  }

  function UpTo<T>(s: seq<T>, n: nat): seq<T> {
    if |s| <= n then s else s[..n]
  }

  predicate Says(link: TrackedLink, token: string) {
    token != "" && TrimSpace(link.clickToken) == token && TrimSpace(link.targetUrl) != ""
  }

  /** The tokens used so far. */
  ghost predicate UsedBefore(input: seq<TrackedLink>, k: nat, seen: set<string>) {
    k <= |input| &&
    forall token :: token in seen <==>
      exists i :: 0 <= i < k && Says(input[i], token)
  }

  lemma UsedMeans(input: seq<TrackedLink>, k: nat, seen: set<string>, token: string)
    requires UsedBefore(input, k, seen)
    ensures token in seen <==> exists i :: 0 <= i < k && Says(input[i], token)
  {
  }

  lemma StorableIsFirst(input: seq<TrackedLink>, k: nat, seen: set<string>)
    requires k < |input| && UsedBefore(input, k, seen)
    ensures Storable(input[k], seen) <==> FirstOfItsToken(input, k)
  {
    var token := TrimSpace(input[k].clickToken);
    UsedMeans(input, k, seen, token);
    if token in seen && token != "" {
      var i :| 0 <= i < k && Says(input[i], token);
    }
    forall i | 0 <= i < k && token != "" && TrimSpace(input[i].clickToken) == token
               && TrimSpace(input[i].targetUrl) != ""
      ensures token in seen
    {
      assert Says(input[i], token);
    }
  }

  lemma UsedNext(input: seq<TrackedLink>, k: nat, seen: set<string>, seen': set<string>)
    requires k < |input| && UsedBefore(input, k, seen)
    requires seen' == if Storable(input[k], seen) then seen + {TrimSpace(input[k].clickToken)} else seen
    ensures UsedBefore(input, k + 1, seen')
  {
    forall other ensures other in seen' <==> exists i :: 0 <= i < k + 1 && Says(input[i], other) {
      UsedMeans(input, k, seen, other);
      if other in seen {
        var i :| 0 <= i < k && Says(input[i], other);
      } else if other in seen' {
        assert Says(input[k], other);
      }
      if i :| 0 <= i < k + 1 && Says(input[i], other) {
        assert i < k ==> other in seen;
      }
    }
  }

  lemma FirstsUnfold(input: seq<TrackedLink>, k: nat)
    requires k < |input|
    ensures Firsts(input, k) == if FirstOfItsToken(input, k) then [Cleaned(input[k])] + Firsts(input, k + 1)
                                else Firsts(input, k + 1)
  {
    assert [] + Firsts(input, k + 1) == Firsts(input, k + 1);
  }

  lemma UpToOne<T>(x: T, later: seq<T>, n: nat)
    requires n > 0
    ensures UpTo([x] + later, n) == [x] + UpTo(later, n - 1)
  {
  }

  lemma {:induction false} StoredIsFirsts(input: seq<TrackedLink>, k: nat, seen: set<string>, room: nat)
    requires UsedBefore(input, k, seen)
    ensures Stored(input[k..], seen, room) == UpTo(Firsts(input, k), room)
    decreases |input| - k
  {
    if room > 0 && k < |input| {
      StorableIsFirst(input, k, seen);
      UsedNext(input, k, seen,
               if Storable(input[k], seen) then seen + {TrimSpace(input[k].clickToken)} else seen);
      StoredUnfolds(input, k, seen, room);
      FirstsUnfold(input, k);
      if Storable(input[k], seen) {
        StoredIsFirsts(input, k + 1, seen + {TrimSpace(input[k].clickToken)}, room - 1);
        UpToOne(Cleaned(input[k]), Firsts(input, k + 1), room);
      } else {
        StoredIsFirsts(input, k + 1, seen, room);
      }
    }
  }

  /** What is stored: the first hundred links that are the first to say something under their token, trimmed. */
  lemma StoredExactly(input: seq<TrackedLink>)
    ensures Stored(input, {}, MAX_LINKS) == UpTo(Firsts(input, 0), 100)
  {
    assert input[0..] == input;
    StoredIsFirsts(input, 0, {}, MAX_LINKS);
  }

  ghost predicate AllStorable(input: seq<TrackedLink>, seen: set<string>) {
    && (forall k :: 0 <= k < |input| ==> Storable(input[k], seen))
    && (forall i, j :: 0 <= i < j < |input| ==> TrimSpace(input[i].clickToken) != TrimSpace(input[j].clickToken))
  }

  lemma AllStorableNext(input: seq<TrackedLink>, seen: set<string>)
    requires input != [] && AllStorable(input, seen)
    ensures AllStorable(input[1..], seen + {TrimSpace(input[0].clickToken)})
  {
  }

  ghost predicate AllCleaned(input: seq<TrackedLink>, output: seq<TrackedLink>) {
    |output| == |input| && forall k :: 0 <= k < |input| ==> output[k] == Cleaned(input[k])
  }

  lemma AllCleanedNext(input: seq<TrackedLink>, output: seq<TrackedLink>)
    requires input != [] && AllCleaned(input[1..], output)
    ensures AllCleaned(input, [Cleaned(input[0])] + output)
  {
  }

  /** Nothing is dropped when every link has a token of its own and there is room. */
  lemma {:induction false} NothingDropped(input: seq<TrackedLink>, seen: set<string>, room: nat)
    requires AllStorable(input, seen) && |input| <= room
    ensures AllCleaned(input, Stored(input, seen, room))
  {
    if input != [] {
      var seen' := seen + {TrimSpace(input[0].clickToken)};
      assert Storable(input[0], seen);
      AllStorableNext(input, seen);
      NothingDropped(input[1..], seen', room - 1);
      AllCleanedNext(input, Stored(input[1..], seen', room - 1));
    }
  }

  ghost predicate IsFrom(input: seq<TrackedLink>, link: TrackedLink) {
    exists l :: l in input && link == Cleaned(l)
  }

  ghost predicate AllFrom(input: seq<TrackedLink>, output: seq<TrackedLink>) {
    forall k :: 0 <= k < |output| ==> IsFrom(input, output[k])
  }

  lemma IsFromLater(input: seq<TrackedLink>, link: TrackedLink)
    requires input != [] && IsFrom(input[1..], link)
    ensures IsFrom(input, link)
  {
    var l :| l in input[1..] && link == Cleaned(l);
    assert l in input;
  }

  lemma AllFromNext(input: seq<TrackedLink>, output: seq<TrackedLink>)
    requires input != [] && AllFrom(input[1..], output)
    ensures AllFrom(input, output) && AllFrom(input, [Cleaned(input[0])] + output)
  {
    forall k | 0 <= k < |output| ensures IsFrom(input, output[k]) {
      IsFromLater(input, output[k]);
    }
    assert input[0] in input;
    assert IsFrom(input, Cleaned(input[0]));
  }

  lemma AllStorableMore(link: TrackedLink, later: seq<TrackedLink>, seen: set<string>)
    requires Storable(link, seen) && Cleaned(link) == link && AllStorable(later, seen + {link.clickToken})
    ensures AllStorable([link] + later, seen)
  {
  }

  lemma CleanedTwice(link: TrackedLink)
    ensures Cleaned(Cleaned(link)) == Cleaned(link)
  {
    TrimSpaceIdempotent(link.clickToken);
    TrimSpaceIdempotent(link.targetUrl);
  }

  /** What is stored comes from what was given, has a token of its own per link, and fits. */
  lemma {:induction false} StoredIsStorable(input: seq<TrackedLink>, seen: set<string>, room: nat)
    ensures AllStorable(Stored(input, seen, room), seen) && |Stored(input, seen, room)| <= room
    ensures AllFrom(input, Stored(input, seen, room))
  {
    if input != [] && room > 0 {
      var first := input[0];
      if !Storable(first, seen) {
        StoredIsStorable(input[1..], seen, room);
        AllFromNext(input, Stored(input[1..], seen, room));
      } else {
        var seen' := seen + {TrimSpace(first.clickToken)};
        var later := Stored(input[1..], seen', room - 1);
        StoredIsStorable(input[1..], seen', room - 1);
        AllFromNext(input, later);
        CleanedTwice(first);
        AllStorableMore(Cleaned(first), later, seen);
      }
    }
  }

  /** Links may be cleaned again wherever they are read back: nothing changes. */
  lemma StoringTwice(input: seq<TrackedLink>)
    ensures Stored(Stored(input, {}, MAX_LINKS), {}, MAX_LINKS) == Stored(input, {}, MAX_LINKS)
  {
    var once := Stored(input, {}, MAX_LINKS);
    StoredIsStorable(input, {}, MAX_LINKS);
    NothingDropped(once, {}, MAX_LINKS);
    forall k | 0 <= k < |once| ensures Stored(once, {}, MAX_LINKS)[k] == once[k] {
      assert IsFrom(input, once[k]);
      var l :| l in input && once[k] == Cleaned(l);
      CleanedTwice(l);
    }
  }

  // ---- Where a click leads ----

  datatype ClickAnswer = NotFound | Redirect(url: string)

  function Lookup(stored: seq<TrackedLink>, token: string): Option<string> {
    if stored == [] then None
    else if stored[0].clickToken == token then Some(stored[0].targetUrl)
    else Lookup(stored[1..], token)
  }

  /** The click handler; `pathToken` is the decoded path segment. */
  function HandleTrackEmailClick(w: World, stored: seq<TrackedLink>, pathToken: string): ClickAnswer {
    var token := TrimSpace(pathToken);
    var target := if token == "" || Lookup(stored, token).None? then "" else Lookup(stored, token).value;
    if IsSafeClickUrl(w, target) then Redirect(target) else NotFound
  }

  lemma {:induction false} LookupFinds(stored: seq<TrackedLink>, k: nat)
    requires k < |stored| && forall i :: 0 <= i < k ==> stored[i].clickToken != stored[k].clickToken
    ensures Lookup(stored, stored[k].clickToken) == Some(stored[k].targetUrl)
  {
    if k > 0 {
      assert stored[0].clickToken != stored[k].clickToken;
      assert forall i :: 0 <= i < k - 1 ==> stored[1..][i] == stored[i + 1];
      LookupFinds(stored[1..], k - 1);
    }
  }

  /** The first link stored under a token. */
  ghost predicate StandsFor(stored: seq<TrackedLink>, token: string, k: nat) {
    && k < |stored| && stored[k].clickToken == token
    && forall i :: 0 <= i < k ==> stored[i].clickToken != token
  }

  lemma {:induction false} LookupMisses(stored: seq<TrackedLink>, token: string) returns (k: nat)
    ensures Lookup(stored, token).Some? ==>
              StandsFor(stored, token, k) && Lookup(stored, token).value == stored[k].targetUrl
    ensures Lookup(stored, token).None? ==> forall i :: 0 <= i < |stored| ==> stored[i].clickToken != token
  {
    k := 0;
    if stored != [] && stored[0].clickToken != token {
      k := LookupMisses(stored[1..], token);
      k := k + 1;
    }
  }

  /** A click redirects if and only if its token is stored with a target that is a web address, and then to that. */
  lemma ClickExactly(w: World, stored: seq<TrackedLink>, pathToken: string, url: string)
    requires !w.parsesAsHttp("")
    ensures HandleTrackEmailClick(w, stored, pathToken) == Redirect(url)
       <==> TrimSpace(pathToken) != "" && w.parsesAsHttp(TrimSpace(url))
            && exists k: nat :: StandsFor(stored, TrimSpace(pathToken), k) && stored[k].targetUrl == url
    ensures HandleTrackEmailClick(w, stored, pathToken) == NotFound
       <==> !exists k: nat :: StandsFor(stored, TrimSpace(pathToken), k) && TrimSpace(pathToken) != ""
                              && w.parsesAsHttp(TrimSpace(stored[k].targetUrl))
  {
    var k := LookupMisses(stored, TrimSpace(pathToken));
  }

  /** No stored target is refused by the click handler. */
  lemma StoredTargetsAreSafe(w: World, t: string, baseUrl: string, k: nat)
    requires k < |Stored(LinksOf(PlanFor(w, t, baseUrl)), {}, MAX_LINKS)|
    ensures IsSafeClickUrl(w, Stored(LinksOf(PlanFor(w, t, baseUrl)), {}, MAX_LINKS)[k].targetUrl)
  {
    var links := LinksOf(PlanFor(w, t, baseUrl));
    StoredIsStorable(links, {}, MAX_LINKS);
    assert IsFrom(links, Stored(links, {}, MAX_LINKS)[k]);
    var l :| l in links && Stored(links, {}, MAX_LINKS)[k] == Cleaned(l);
    LinkHasAnchor(PlanFor(w, t, baseUrl), l);
    PlanForFacts(w, t, baseUrl);
    TrimSpaceIdempotent(l.targetUrl);
  }

  /** Random tokens: never blank, never drawn twice. */
  ghost predicate TokensAreFresh(w: World) {
    && (forall n :: TrimSpace(w.token(n)) != "")
    && (forall m, n :: m != n ==> TrimSpace(w.token(m)) != TrimSpace(w.token(n)))
  }

  /** The URL pattern starts with a letter, so a target never trims away. */
  lemma TargetSurvivesTrimming(w: World, t: string, baseUrl: string, a: Anchor)
    requires a in PlanFor(w, t, baseUrl)
    ensures TrimSpace(a.target) != ""
  {
    LinksAreRight(w, t, baseUrl, a);
    assert a.target[0] == t[a.span.start] == 'h';
    TrimRightKeepsFirst(a.target);
  }

  lemma LinksStoreWhole(w: World, t: string, baseUrl: string)
    requires TokensAreFresh(w) && Usable(w, baseUrl)
    ensures AllStorable(LinksOf(PlanFor(w, t, baseUrl)), {})
  {
    var plan := PlanFor(w, t, baseUrl);
    var links := LinksOf(plan);
    TrackedLinksMatch(w, t, baseUrl);
    forall k | 0 <= k < |links| ensures Storable(links[k], {}) {
      TargetSurvivesTrimming(w, t, baseUrl, plan[k]);
    }
  }

  lemma StoredIsFound(links: seq<TrackedLink>, k: nat)
    requires AllStorable(links, {}) && |links| <= MAX_LINKS && k < |links|
    ensures Lookup(Stored(links, {}, MAX_LINKS), TrimSpace(links[k].clickToken)) == Some(TrimSpace(links[k].targetUrl))
  {
    var stored := Stored(links, {}, MAX_LINKS);
    NothingDropped(links, {}, MAX_LINKS);
    assert forall i :: 0 <= i <= k ==> stored[i] == Cleaned(links[i]);
    LookupFinds(stored, k);
  }

  lemma TrackedIsListed(w: World, t: string, baseUrl: string, a: Anchor) returns (k: nat)
    requires a in PlanFor(w, t, baseUrl) && a.token.Some? && Usable(w, baseUrl)
    ensures k < |LinksOf(PlanFor(w, t, baseUrl))|
    ensures LinksOf(PlanFor(w, t, baseUrl))[k] == TrackedLink(a.token.value, a.target)
  {
    TrackedLinksMatch(w, t, baseUrl);
    k :| 0 <= k < |PlanFor(w, t, baseUrl)| && PlanFor(w, t, baseUrl)[k] == a;
  }

  /** Clicking a tracked link leads to the target the reader saw, white space at its end aside. */
  lemma ClickLeadsToTarget(w: World, t: string, baseUrl: string, a: Anchor)
    requires TokensAreFresh(w) && a in PlanFor(w, t, baseUrl) && a.token.Some?
    ensures HandleTrackEmailClick(w, Stored(LinksOf(PlanFor(w, t, baseUrl)), {}, MAX_LINKS), TrimSpace(a.token.value))
         == Redirect(TrimSpace(a.target))
  {
    LinksAreRight(w, t, baseUrl, a);
    assert Usable(w, baseUrl);
    TrackedLinksMatch(w, t, baseUrl);
    var k := TrackedIsListed(w, t, baseUrl, a);
    LinksStoreWhole(w, t, baseUrl);
    StoredIsFound(LinksOf(PlanFor(w, t, baseUrl)), k);
    TrimSpaceIdempotent(a.token.value);
    TrimSpaceIdempotent(a.target);
  }
}
