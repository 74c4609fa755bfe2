/** Who may start an email send: session, role and hosted billing, in that order, on every route that can send. */
module WritePolicy {
  import opened Basics
  import opened Text
  import opened DeliveryStore

  datatype Verb = GET | HEAD | OPTIONS | POST | PUT | PATCH | DELETE

  /** A route pattern such as "POST /api/email-replies/{replyID}/resolve", its path cut at the slashes. */
  datatype Pattern = Pattern(verb: Verb, path: seq<string>)

  datatype Session = SignedOut | AuthUnavailable | AuthFailed | SignedIn(role: string)

  datatype Billing = Writable | Lapsed | Unverifiable

  datatype Effect = AskedBilling(billing: Billing) | Replied(status: nat) | StoreAsked | SendStarted

  /** The routes that can start an email send. */
  datatype Route =
    | ContactEmail | ContactEmailTest | CompanyEmail | CompanyEmailTest | DealEmail | DealEmailTest
    | ThreadReply | QuoteDelivery
    | ResolveRecord | ResolveReply | ResolveQuote

  function PatternOf(route: Route): Pattern {
    match route
    case ContactEmail => Pattern(POST, ["api", "contacts", "{contactID}", "email"])
    case ContactEmailTest => Pattern(POST, ["api", "contacts", "{contactID}", "email-test"])
    case CompanyEmail => Pattern(POST, ["api", "companies", "{companyID}", "email"])
    case CompanyEmailTest => Pattern(POST, ["api", "companies", "{companyID}", "email-test"])
    case DealEmail => Pattern(POST, ["api", "deals", "{dealID}", "email"])
    case DealEmailTest => Pattern(POST, ["api", "deals", "{dealID}", "email-test"])
    case ThreadReply => Pattern(POST, ["api", "email-threads", "{messageID}", "reply"])
    case QuoteDelivery => Pattern(POST, ["api", "deals", "{dealID}", "quotes", "{quoteID}", "deliveries"])
    case ResolveRecord => Pattern(POST, ["api", "record-email-deliveries", "{deliveryID}", "resolve"])
    case ResolveReply => Pattern(POST, ["api", "email-replies", "{replyID}", "resolve"])
    case ResolveQuote => Pattern(POST, ["api", "deal-quote-deliveries", "{deliveryID}", "resolve"])
  }

  /** The routes that stay open while a hosted workspace is read-only. */
  predicate IsRecoveryRoute(p: Pattern) {
    || p == Pattern(PATCH, ["api", "me", "profile"])
    || p == Pattern(PATCH, ["api", "me", "preferences"])
    || p == Pattern(DELETE, ["api", "me", "sessions", "{sessionID}"])
    || p == Pattern(DELETE, ["api", "me", "sessions", "others"])
    || p == Pattern(DELETE, ["api", "users", "{userID}", "invitation"])
    || p == Pattern(POST, ["api", "deals", "{dealID}", "signature-requests", "{requestID}", "void"])
    || p == Pattern(PATCH, ["api", "notifications", "{notificationID}", "read"])
    || p == Pattern(POST, ["api", "notifications", "read-all"])
    || p == Pattern(POST, ["api", "admin", "background-jobs", "{jobID}", "replay"])
    || p == Pattern(POST, ["api", "email-replies", "{replyID}", "resolve"])
    || p == Pattern(POST, ["api", "record-email-deliveries", "{deliveryID}", "resolve"])
    || p == Pattern(POST, ["api", "contacts", "{contactID}", "email-preview"])
    || p == Pattern(POST, ["api", "companies", "{companyID}", "email-preview"])
    || p == Pattern(POST, ["api", "deals", "{dealID}", "email-preview"])
    || p == Pattern(POST, ["api", "billing", "change-plan"])
    || p == Pattern(POST, ["api", "billing", "checkout-session"])
    || p == Pattern(POST, ["api", "billing", "portal-session"])
    || p == Pattern(POST, ["api", "billing", "webhooks", "stripe"])
    || p == Pattern(POST, ["api", "email", "webhooks", "postmark"])
    || p == Pattern(POST, ["api", "email-unsubscribe", "{token}"])
    || p == Pattern(POST, ["api", "workspace-exports"])
  }

  function HostedWriteRequiresActiveSubscription(method_: Verb, p: Pattern): bool {
    if p == Pattern(GET, ["api", "me", "email-sync", "oauth", "{provider}", "callback"]) then true
    else if method_.GET? || method_.HEAD? || method_.OPTIONS? then false
    else if !(|p.path| >= 2 && p.path[0] == "api") || (|p.path| >= 3 && p.path[1] == "public") then false
    else !IsRecoveryRoute(p)
  }

  /** What can be posted while a workspace is read-only: settling mail and jobs, previews, billing, leaving. */
  predicate OpenForPost(path: seq<string>) {
    || path in {["api", "email-replies", "{replyID}", "resolve"],
                ["api", "record-email-deliveries", "{deliveryID}", "resolve"],
                ["api", "admin", "background-jobs", "{jobID}", "replay"],
                ["api", "deals", "{dealID}", "signature-requests", "{requestID}", "void"],
                ["api", "notifications", "read-all"]}
    || path in {["api", "contacts", "{contactID}", "email-preview"],
                ["api", "companies", "{companyID}", "email-preview"],
                ["api", "deals", "{dealID}", "email-preview"]}
    || path in {["api", "billing", "change-plan"], ["api", "billing", "checkout-session"],
                ["api", "billing", "portal-session"], ["api", "billing", "webhooks", "stripe"]}
    || path in {["api", "email", "webhooks", "postmark"], ["api", "email-unsubscribe", "{token}"],
                ["api", "workspace-exports"]}
  }

  /**
   * Reading never needs a subscription, save the callback that connects a mailbox; outside the API and under its
   * public part nothing does; and of the rest exactly these stay open, verb by verb.
   */
  lemma PolicyExactly(p: Pattern)
    ensures p.verb.GET? ==>
              (HostedWriteRequiresActiveSubscription(p.verb, p)
               <==> p.path == ["api", "me", "email-sync", "oauth", "{provider}", "callback"])
    ensures p.verb.HEAD? || p.verb.OPTIONS? ==> !HostedWriteRequiresActiveSubscription(p.verb, p)
    ensures var open := |p.path| < 2 || p.path[0] != "api" || (|p.path| >= 3 && p.path[1] == "public");
            && (p.verb.PUT? ==> (HostedWriteRequiresActiveSubscription(p.verb, p) <==> !open))
            && (p.verb.PATCH? ==>
                  (HostedWriteRequiresActiveSubscription(p.verb, p) <==>
                     !open && p.path !in {["api", "me", "profile"], ["api", "me", "preferences"],
                                          ["api", "notifications", "{notificationID}", "read"]}))
            && (p.verb.DELETE? ==>
                  (HostedWriteRequiresActiveSubscription(p.verb, p) <==>
                     !open && p.path !in {["api", "me", "sessions", "{sessionID}"], ["api", "me", "sessions", "others"],
                                          ["api", "users", "{userID}", "invitation"]}))
            && (p.verb.POST? ==>
                  (HostedWriteRequiresActiveSubscription(p.verb, p) <==> !open && !OpenForPost(p.path)))
  {
  }

  lemma EmailRoutesUnderPolicy(route: Route)
    requires route.ContactEmail? || route.ContactEmailTest? || route.CompanyEmail? || route.CompanyEmailTest?
             || route.DealEmail? || route.DealEmailTest?
    ensures HostedWriteRequiresActiveSubscription(POST, PatternOf(route))
  {
    assert |PatternOf(route).path[3]| == 5 || |PatternOf(route).path[3]| == 10;
  }

  lemma OtherRoutesUnderPolicy(route: Route)
    requires route.ThreadReply? || route.QuoteDelivery? || route.ResolveQuote?
    ensures HostedWriteRequiresActiveSubscription(POST, PatternOf(route))
  {
  }

  /** Only the two resolve routes with a billing check of their own are exempt from the route policy. */
  lemma SendRoutesUnderPolicy(route: Route)
    ensures HostedWriteRequiresActiveSubscription(POST, PatternOf(route))
       <==> !(route.ResolveRecord? || route.ResolveReply?)
  {
    if route.ThreadReply? || route.QuoteDelivery? || route.ResolveQuote? {
      OtherRoutesUnderPolicy(route);
    } else if !route.ResolveRecord? && !route.ResolveReply? {
      EmailRoutesUnderPolicy(route);
    }
  }

  // ---- The checks a handler runs ----

  datatype Guard = ForMembers | ForAdmins | ForWriters

  predicate IsOrgAdminRole(role: string) {
    TrimSpace(ToLower(role)) in {"owner", "admin"}
  }

  predicate IsOrgWriterRole(role: string) {
    TrimSpace(ToLower(role)) in {"owner", "admin", "member"}
  }

  function EnforceSpec(billing: Option<Billing>): (seq<Effect>, bool) {
    match billing
    case None => ([], true)
    case Some(Writable) => ([AskedBilling(Writable)], true)
    case Some(Lapsed) => ([AskedBilling(Lapsed), Replied(402)], false)
    case Some(Unverifiable) => ([AskedBilling(Unverifiable), Replied(503)], false)
  }

  predicate RoleFits(guard: Guard, policy: Option<Billing>, role: string) {
    match guard
    case ForMembers => policy.Some? ==> IsOrgWriterRole(role)
    case ForAdmins => IsOrgAdminRole(role)
    case ForWriters => IsOrgWriterRole(role)
  }

  /** Session first, then role, then billing. */
  function GateSpec(guard: Guard, policy: Option<Billing>, session: Session): (seq<Effect>, bool) {
    match session
    case SignedOut => ([Replied(401)], false)
    case AuthUnavailable => ([Replied(503)], false)
    case AuthFailed => ([Replied(500)], false)
    case SignedIn(role) => if RoleFits(guard, policy, role) then EnforceSpec(policy) else ([Replied(403)], false)
  }

  /** Everything a request meets. `ready`: services configured and the request well formed;
      `reaches`: a send route gets as far as its claim. */
  datatype Env = Env(
    session: Session, billing: Option<Billing>, ready: bool, reaches: bool,
    row: Row, user: nat, standing: Standing, resolution: string, fault: Fault)

  function ParseResolution(text: string): Option<Resolution> {
    var n := ToLower(TrimSpace(text));
    if n == "confirmed_sent" then Some(ConfirmedSent)
    else if n == "retry" then Some(Retry)
    else if n == "not_sent" then Some(NotSent)
    else None
  }

  function StoreResolve(env: Env, text: string): Answer {
    match ParseResolution(text)
    case None => Refused
    case Some(resolution) => Faulted(env.fault, env.row, ResolveSpec(env.row, env.user, env.standing, resolution)).1
  }

  function AfterResolve(env: Env, text: string): seq<Effect> {
    [StoreAsked] + match StoreResolve(env, text)
                   case Refused => [Replied(409)]
                   case Got(_, shouldSend) => if shouldSend then [SendStarted] else [Replied(200)]
  }

  function ResolveTrace(env: Env): seq<Effect> {
    var text := ToLower(TrimSpace(env.resolution));
    var check := if text == "retry" then EnforceSpec(env.billing) else ([], true);
    check.0 + if check.1 then AfterResolve(env, text) else []
  }

  /** A route's handler once its request is past the gate. */
  function HandlerTrace(route: Route, env: Env): seq<Effect> {
    if !env.ready then [Replied(400)]
    else match route
      case ResolveQuote => AfterResolve(env, env.resolution)
      case ResolveRecord => ResolveTrace(env)
      case ResolveReply => ResolveTrace(env)
      case _ => [if env.reaches then SendStarted else Replied(200)]
  }

  function PolicyFor(route: Route, billing: Option<Billing>): Option<Billing> {
    if HostedWriteRequiresActiveSubscription(POST, PatternOf(route)) then billing else None
  }

  function TraceUnder(policy: Option<Billing>, route: Route, env: Env): seq<Effect> {
    var (gate, ok) := GateSpec(ForWriters, policy, env.session);
    gate + if ok then HandlerTrace(route, env) else []
  }

  /** Everything one request to a route does, in order. */
  function Trace(route: Route, env: Env): seq<Effect> {
    TraceUnder(PolicyFor(route, env.billing), route, env)
  }

  /** One request and its context, which the policy marks in place. */
  class Exchange {
    var policy: Option<Billing>
    var effects: seq<Effect>

    constructor ()
      ensures policy == None && effects == []
    {
      policy := None;
      effects := [];
    }

    method Do(effect: Effect)
      modifies this`effects
      ensures effects == old(effects) + [effect]
    {
      effects := effects + [effect];
    }

    method EnforceActiveSubscription(billing: Option<Billing>) returns (ok: bool)
      modifies this`effects
      ensures (effects, ok) == (old(effects) + EnforceSpec(billing).0, EnforceSpec(billing).1)
      ensures match billing
              case None => ok && effects == old(effects)
              case Some(Writable) => ok && effects == old(effects) + [AskedBilling(Writable)]
              case Some(Lapsed) => !ok && effects == old(effects) + [AskedBilling(Lapsed), Replied(402)]
              case Some(Unverifiable) => !ok && effects == old(effects) + [AskedBilling(Unverifiable), Replied(503)]
    {
      if billing.None? {
        assert effects + [] == effects;
        return true;
      }
      Do(AskedBilling(billing.value));
      if billing.value.Writable? {
        return true;
      }
      ghost var asked := [AskedBilling(billing.value)];
      if billing.value.Lapsed? {
        assert EnforceSpec(billing).0 == asked + [Replied(402)];
        assert effects + [Replied(402)] == old(effects) + (asked + [Replied(402)]);
        Do(Replied(402));
        return false;
      }
      assert EnforceSpec(billing).0 == asked + [Replied(503)];
      assert effects + [Replied(503)] == old(effects) + (asked + [Replied(503)]);
      Do(Replied(503));
      ok := false;
    }

    /** Answers a request without a session. */
    method RequireCurrentSession(session: Session) returns (role: Option<string>)
      modifies this`effects
      ensures if session.SignedIn? then role == Some(session.role) && effects == old(effects)
              else role == None && effects == old(effects) + GateSpec(ForWriters, None, session).0
    {
      match session {
        case SignedOut => Do(Replied(401)); role := None;
        case AuthUnavailable => Do(Replied(503)); role := None;
        case AuthFailed => Do(Replied(500)); role := None;
        case SignedIn(r) => role := Some(r);
      }
    }

    method RequireOrgMember(session: Session) returns (ok: bool)
      modifies this`effects
      ensures var (more, passed) := GateSpec(ForMembers, policy, session);
              effects == old(effects) + more && ok == passed
    {
      var role := RequireCurrentSession(session);
      if role.None? {
        return false;
      }
      if policy.Some? {
        if !IsOrgWriterRole(role.value) {
          Do(Replied(403));
          return false;
        }
        ok := EnforceActiveSubscription(policy);
        return;
      }
      assert effects + [] == effects;
      ok := true;
    }

    method RequireOrgAdmin(session: Session) returns (ok: bool)
      modifies this`effects
      ensures var (more, passed) := GateSpec(ForAdmins, policy, session);
              effects == old(effects) + more && ok == passed
    {
      var role := RequireCurrentSession(session);
      if role.None? {
        return false;
      }
      if !IsOrgAdminRole(role.value) {
        Do(Replied(403));
        return false;
      }
      ok := EnforceActiveSubscription(policy);
    }

    method RequireOrgWriter(session: Session) returns (ok: bool)
      modifies this`effects
      ensures var (more, passed) := GateSpec(ForWriters, policy, session);
              effects == old(effects) + more && ok == passed
    {
      var role := RequireCurrentSession(session);
      if role.None? {
        return false;
      }
      if !IsOrgWriterRole(role.value) {
        Do(Replied(403));
        return false;
      }
      ok := EnforceActiveSubscription(policy);
    }

    method FinishResolve(env: Env, text: string)
      modifies this`effects
      ensures effects == old(effects) + AfterResolve(env, text)
    {
      Do(StoreAsked);
      var answer := StoreResolve(env, text);
      match answer {
        case Refused => Do(Replied(409));
        case Got(_, shouldSend) =>
          if shouldSend {
            Do(SendStarted);
          } else {
            Do(Replied(200));
          }
      }
    }

    /** The resolve handlers of record emails and replies. */
    method HandleResolveWithOwnCheck(env: Env)
      modifies this`effects
      ensures effects == old(effects) + ResolveTrace(env)
    {
      var text := ToLower(TrimSpace(env.resolution));
      if text == "retry" {
        var ok := EnforceActiveSubscription(env.billing);
        if !ok {
          return;
        }
      }
      FinishResolve(env, text);
    }

    method Handle(route: Route, env: Env)
      modifies this`effects
      ensures effects == old(effects) + HandlerTrace(route, env)
    {
      if !env.ready {
        Do(Replied(400));
        return;
      }
      match route {
        case ResolveQuote => FinishResolve(env, env.resolution);
        case ResolveRecord => HandleResolveWithOwnCheck(env);
        case ResolveReply => HandleResolveWithOwnCheck(env);
        case _ => Do(if env.reaches then SendStarted else Replied(200));
      }
    }

    method Guarded(route: Route, env: Env)
      modifies this`effects
      ensures effects == old(effects) + TraceUnder(policy, route, env)
    {
      var ok := RequireOrgWriter(env.session);
      if ok {
        Handle(route, env);
      }
    }

    /** The policy, then the route's checks and its handler. */
    method ServeHttp(route: Route, env: Env)
      requires policy == None && effects == []
      modifies this
      ensures effects == Trace(route, env)
    {
      var marked := HostedWriteRequiresActiveSubscription(POST, PatternOf(route));
      if env.billing.Some? && marked {
        policy := env.billing;
      }
      Guarded(route, env);
    }
  }

  // ---- What the order of the checks guarantees ----

  predicate PassesRole(env: Env) {
    env.session.SignedIn? && IsOrgWriterRole(env.session.role)
  }

  /** The handler sees "retry" in exactly the texts the store will treat as a retry. */
  lemma SameRetry(text: string)
    ensures ParseResolution(ToLower(TrimSpace(text))) == ParseResolution(text)
    ensures ParseResolution(text) == Some(Retry) <==> ToLower(TrimSpace(text)) == "retry"
    ensures ParseResolution(text) == Some(ConfirmedSent) <==> ToLower(TrimSpace(text)) == "confirmed_sent"
    ensures ParseResolution(text) == Some(NotSent) <==> ToLower(TrimSpace(text)) == "not_sent"
  {
    TrimLowerTrim(text);
    var n := ToLower(TrimSpace(text));
    assert forall c: char :: Lower(Lower(c)) == Lower(c);
    assert ToLower(n) == n;
  }

  predicate WantsSend(route: Route, env: Env) {
    && env.ready
    && match route
       case ResolveRecord => StoreResolve(env, env.resolution).Got? && ParseResolution(env.resolution) == Some(Retry)
       case ResolveReply => StoreResolve(env, env.resolution).Got? && ParseResolution(env.resolution) == Some(Retry)
       case ResolveQuote => StoreResolve(env, env.resolution).Got? && ParseResolution(env.resolution) == Some(Retry)
       case _ => env.reaches
  }

  predicate Asked(effects: seq<Effect>) {
    exists i :: 0 <= i < |effects| && effects[i].AskedBilling?
  }

  predicate AskedOnce(effects: seq<Effect>) {
    forall i, j :: 0 <= i < j < |effects| ==> !(effects[i].AskedBilling? && effects[j].AskedBilling?)
  }

  lemma AskedIn(x: seq<Effect>, y: seq<Effect>)
    ensures Asked(x + y) <==> Asked(x) || Asked(y)
    ensures AskedOnce(x) && AskedOnce(y) && !(Asked(x) && Asked(y)) ==> AskedOnce(x + y)
  {
    if Asked(x) {
      var i :| 0 <= i < |x| && x[i].AskedBilling?;
      assert (x + y)[i].AskedBilling?;
    }
    if Asked(y) {
      var i :| 0 <= i < |y| && y[i].AskedBilling?;
      assert (x + y)[|x| + i].AskedBilling?;
    }
  }

  lemma EnforceFacts(billing: Option<Billing>)
    ensures var (e, ok) := EnforceSpec(billing);
            && (Asked(e) <==> billing.Some?) && AskedOnce(e) && SendStarted !in e
            && (ok <==> (billing.Some? ==> billing == Some(Writable)))
            && (ok && billing.Some? ==> e == [AskedBilling(Writable)])
  {
    var e := EnforceSpec(billing).0;
    assert billing.Some? ==> e[0].AskedBilling?;
  }

  lemma GateFacts(policy: Option<Billing>, env: Env)
    ensures var (e, ok) := GateSpec(ForWriters, policy, env.session);
            && (Asked(e) <==> policy.Some? && PassesRole(env)) && AskedOnce(e) && SendStarted !in e
            && (ok <==> PassesRole(env) && (policy.Some? ==> policy == Some(Writable)))
            && (ok && policy.Some? ==> e == [AskedBilling(Writable)])
  {
    EnforceFacts(policy);
  }

  predicate WantsRetry(env: Env) {
    ParseResolution(env.resolution) == Some(Retry)
  }

  predicate HasOwnCheck(route: Route) {
    route.ResolveRecord? || route.ResolveReply?
  }

  lemma AfterResolveFacts(env: Env, text: string)
    ensures var e := AfterResolve(env, text);
            && (SendStarted in e <==> StoreResolve(env, text).Got? && ParseResolution(text) == Some(Retry))
            && !Asked(e) && AskedOnce(e)
  {
  }

  lemma ResolveFacts(env: Env)
    ensures var e := ResolveTrace(env);
            && (SendStarted in e <==> StoreResolve(env, env.resolution).Got? && WantsRetry(env)
                                      && (env.billing.Some? ==> env.billing == Some(Writable)))
            && (Asked(e) <==> WantsRetry(env) && env.billing.Some?) && AskedOnce(e)
            && (SendStarted in e && env.billing.Some? ==> AskedBilling(Writable) in e)
  {
    var text := ToLower(TrimSpace(env.resolution));
    var check := if text == "retry" then EnforceSpec(env.billing) else ([], true);
    SameRetry(env.resolution);
    EnforceFacts(env.billing);
    AfterResolveFacts(env, text);
    AskedIn(check.0, if check.1 then AfterResolve(env, text) else []);
  }

  lemma HandlerFacts(route: Route, env: Env)
    ensures var e := HandlerTrace(route, env);
            && (SendStarted in e <==> WantsSend(route, env)
                                      && (HasOwnCheck(route) && env.billing.Some? ==> env.billing == Some(Writable)))
            && (Asked(e) <==> HasOwnCheck(route) && env.ready && WantsRetry(env) && env.billing.Some?) && AskedOnce(e)
            && (HasOwnCheck(route) && SendStarted in e && env.billing.Some? ==> AskedBilling(Writable) in e)
  {
    ResolveFacts(env);
    AfterResolveFacts(env, env.resolution);
  }

  lemma PolicyUnlessOwnCheck(route: Route, env: Env)
    ensures PolicyFor(route, env.billing) == if HasOwnCheck(route) then None else env.billing
  {
    SendRoutesUnderPolicy(route);
  }

  lemma TraceFacts(policy: Option<Billing>, route: Route, env: Env)
    requires policy == if HasOwnCheck(route) then None else env.billing
    ensures var e := TraceUnder(policy, route, env);
            && (SendStarted in e
                <==> WantsSend(route, env) && PassesRole(env) && (env.billing.Some? ==> env.billing == Some(Writable)))
            && (SendStarted in e && env.billing.Some? ==> AskedBilling(Writable) in e)
            && (Asked(e) <==>
                  env.billing.Some? && PassesRole(env) && (HasOwnCheck(route) ==> env.ready && WantsRetry(env)))
            && AskedOnce(e)
  {
    var (gate, ok) := GateSpec(ForWriters, policy, env.session);
    GateFacts(policy, env);
    HandlerFacts(route, env);
    AskedIn(gate, if ok then HandlerTrace(route, env) else []);
  }

  /** What it takes to want a send: a send that gets as far as its claim, or a retry of one's own uncertain row. */
  lemma WantsSendExactly(route: Route, env: Env)
    ensures WantsSend(route, env) <==>
              && env.ready
              && if route.ResolveRecord? || route.ResolveReply? || route.ResolveQuote?
                 then
                   && ToLower(TrimSpace(env.resolution)) == "retry" && env.fault.Clean?
                   && env.row.status.Uncertain? && env.row.actor == env.user
                   && (env.standing.Member? || env.standing.Admin? || (env.row.kind.DealQuote? && env.standing.Reader?))
                 else env.reaches
  {
    SameRetry(env.resolution);
  }

  /**
   * A send starts exactly when the request wants one, the user is signed in with a writing role and hosted
   * billing, if there is any, was asked in this request and called the workspace writable.
   */
  lemma SendStartsExactly(route: Route, env: Env)
    ensures SendStarted in Trace(route, env)
       <==> && WantsSend(route, env)
            && env.session.SignedIn? && TrimSpace(ToLower(env.session.role)) in {"owner", "admin", "member"}
            && (env.billing.Some? ==> env.billing == Some(Writable))
    ensures SendStarted in Trace(route, env) && env.billing.Some? ==> AskedBilling(Writable) in Trace(route, env)
  {
    PolicyUnlessOwnCheck(route, env);
    TraceFacts(PolicyFor(route, env.billing), route, env);
  }

  /** Billing is asked at most once, and exactly when the session and role checks have passed and the route needs it. */
  lemma BillingIsAskedLast(route: Route, env: Env)
    ensures Asked(Trace(route, env))
       <==> env.billing.Some? && PassesRole(env) && (HasOwnCheck(route) ==> env.ready && WantsRetry(env))
    ensures AskedOnce(Trace(route, env))
  {
    PolicyUnlessOwnCheck(route, env);
    TraceFacts(PolicyFor(route, env.billing), route, env);
  }

  /** For every kind of guard: no billing question before a session and a fitting role, and none without the policy. */
  lemma GuardsAskInOrder(guard: Guard, policy: Option<Billing>, session: Session)
    ensures Asked(GateSpec(guard, policy, session).0)
       <==> policy.Some? && session.SignedIn? && RoleFits(guard, policy, session.role)
    ensures GateSpec(guard, policy, session).1 && policy.Some? ==>
              policy == Some(Writable) && session.SignedIn? && IsOrgWriterRole(session.role)
  {
    EnforceFacts(policy);
  }

  /** Who gets past a guard, and what the others are told. */
  lemma GuardsAnswer(guard: Guard, policy: Option<Billing>, session: Session)
    ensures var (effects, ok) := GateSpec(guard, policy, session);
            match session
            case SignedOut => !ok && effects == [Replied(401)]
            case AuthUnavailable => !ok && effects == [Replied(503)]
            case AuthFailed => !ok && effects == [Replied(500)]
            case SignedIn(role) =>
              var r := TrimSpace(ToLower(role));
              var fits := match guard
                          case ForMembers => policy.Some? ==> r in {"owner", "admin", "member"}
                          case ForAdmins => r in {"owner", "admin"}
                          case ForWriters => r in {"owner", "admin", "member"};
              if !fits then !ok && effects == [Replied(403)]
              else match policy
                case None => ok && effects == []
                case Some(Writable) => ok && effects == [AskedBilling(Writable)]
                case Some(Lapsed) => !ok && effects == [AskedBilling(Lapsed), Replied(402)]
                case Some(Unverifiable) => !ok && effects == [AskedBilling(Unverifiable), Replied(503)]
  {
  }

  /** Past its guard a request is always answered or sent: a bad one with 400, a resolution the store refuses with
      409, one that needed no send with 200. */
  lemma HandlersAnswer(route: Route, env: Env)
    ensures var e := HandlerTrace(route, env);
            && e != []
            && (!env.ready ==> e == [Replied(400)])
            && (env.ready && route.ResolveQuote? ==>
                  e == [StoreAsked] + (match StoreResolve(env, env.resolution)
                                       case Refused => [Replied(409)]
                                       case Got(_, send) => if send then [SendStarted] else [Replied(200)]))
            && (env.ready && HasOwnCheck(route) && !WantsRetry(env) ==>
                  e == [StoreAsked, Replied(if StoreResolve(env, env.resolution).Refused? then 409 else 200)])
            && (env.ready && HasOwnCheck(route) && WantsRetry(env) && env.billing == Some(Lapsed) ==>
                  e == [AskedBilling(Lapsed), Replied(402)])
            && (env.ready && HasOwnCheck(route) && WantsRetry(env) && env.billing == Some(Unverifiable) ==>
                  e == [AskedBilling(Unverifiable), Replied(503)])
            && (env.ready && !HasOwnCheck(route) && !route.ResolveQuote? ==>
                  e == [if env.reaches then SendStarted else Replied(200)])
  {
    SameRetry(env.resolution);
  }
}
