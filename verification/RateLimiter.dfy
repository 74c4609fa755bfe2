/** The in-memory rate limiter: a bounded table of fixed windows. Times are in nanoseconds. */
module RateLimiter {
  import opened Basics
  import opened Text

  const SECOND := 1_000_000_000
  const MINUTE := 60 * SECOND

  datatype Bucket = Bucket(expiresAt: int, count: nat)

  type Table = map<string, Bucket>

  datatype Decision = Decision(allowed: bool, retryAfter: int)

  datatype Call = Call(scope: string, clientKey: string, limit: int, window: int, now: int)

  function JoinedKey(scope: string, clientKey: string): string {
    TrimSpace(scope) + ":" + TrimSpace(clientKey)
  }

  function KeyOf(c: Call): string {
    JoinedKey(c.scope, c.clientKey)
  }

  function LimitOf(c: Call): nat {
    if c.limit <= 0 then 1 else c.limit
  }

  function WindowOf(c: Call): nat {
    if c.window <= 0 then MINUTE else c.window
  }

  predicate Live(b: Bucket, now: int) {
    now < b.expiresAt
  }

  predicate HasLive(t: Table, key: string, now: int) {
    key in t && Live(t[key], now)
  }

  function LiveOf(t: Table, now: int): Table {
    map key | key in t && Live(t[key], now) :: t[key]
  }

  /** One call with no bound on the number of keys: the specification of a fixed window per key. */
  function Ideal(t: Table, c: Call): (Decision, Table) {
    var key, window := KeyOf(c), WindowOf(c);
    if !HasLive(t, key, c.now) then (Decision(true, window), t[key := Bucket(c.now + window, 1)])
    else
      var b := t[key];
      if b.count >= LimitOf(c) then (Decision(false, b.expiresAt - c.now), t)
      else (Decision(true, b.expiresAt - c.now), t[key := b.(count := b.count + 1)])
  }

  /** The table with an expired bucket of the key, and if need be all expired buckets, cleared away. */
  function RoomFor(t: Table, maxKeys: nat, key: string, now: int): Table {
    var kept := t - {key};
    if |kept| >= maxKeys then LiveOf(kept, now) else kept
  }

  /** One call as the bounded table handles it. */
  function Decide(t: Table, maxKeys: nat, c: Call): (Decision, Table) {
    var key, window := KeyOf(c), WindowOf(c);
    if HasLive(t, key, c.now) then Ideal(t, c)
    else
      var room := RoomFor(t, maxKeys, key, c.now);
      if |room| >= maxKeys then (Decision(false, window), room)
      else (Decision(true, window), room[key := Bucket(c.now + window, 1)])
  }

  datatype Response = Pass | TooManyRequests(retryAfterHeader: int) | Unavailable(retryAfterHeader: int)

  function RetrySeconds(wait: int): int {
    var s := (wait + SECOND - 1) / SECOND;
    if s < 1 then 1 else s
  }

  /** The answer to a request, from the limiter's decision or its failure to decide. */
  function Respond(decision: Option<Decision>): Response {
    match decision
    case None => Unavailable(1)
    case Some(d) => if d.allowed then Pass else TooManyRequests(RetrySeconds(d.retryAfter))
  }

  class FixedWindowRateLimiter {
    var buckets: Table
    const maxKeys: nat

    constructor (keys: int)
      ensures buckets == map[] && maxKeys == (if keys <= 0 then 1024 else keys)
    {
      maxKeys := if keys <= 0 then 1024 else keys;
      buckets := map[];
    }

    method PruneExpired(now: int)
      modifies this
      ensures buckets == LiveOf(old(buckets), now)
    {
      var pending := buckets.Keys;
      while pending != {}
        invariant pending <= buckets.Keys <= old(buckets).Keys
        invariant forall k :: k in buckets ==> buckets[k] == old(buckets)[k]
        invariant forall k :: k in old(buckets) && k !in pending ==> (k in buckets <==> Live(old(buckets)[k], now))
      {
        var key :| key in pending;
        if !(now < buckets[key].expiresAt) {
          buckets := buckets - {key};
        }
        pending := pending - {key};
      }
    }

    method Allow(c: Call) returns (d: Decision)
      modifies this
      ensures (d, buckets) == Decide(old(buckets), maxKeys, c)
    {
      var limit, window := c.limit, c.window;
      if limit <= 0 {
        limit := 1;
      }
      if window <= 0 {
        window := MINUTE;
      }
      var key := TrimSpace(c.scope) + ":" + TrimSpace(c.clientKey);
      var exists_ := key in buckets;
      if exists_ && !(c.now < buckets[key].expiresAt) {
        buckets := buckets - {key};
        exists_ := false;
      }
      if !exists_ {
        assert buckets == old(buckets) - {key};
        if |buckets| >= maxKeys {
          PruneExpired(c.now);
        }
        if |buckets| >= maxKeys {
          return Decision(false, window);
        }
        buckets := buckets[key := Bucket(c.now + window, 1)];
        return Decision(true, window);
      }
      var bucket := buckets[key];
      var retryAfter := bucket.expiresAt - c.now;
      if retryAfter <= 0 {
        retryAfter := SECOND;
      }
      if bucket.count >= limit {
        return Decision(false, retryAfter);
      }
      bucket := bucket.(count := bucket.count + 1);
      buckets := buckets[key := bucket];
      d := Decision(true, retryAfter);
    }

    /** The handlers' use of a limiter, this one or another whose answer may fail to come. */
    method RejectRateLimited(c: Call, fails: bool) returns (response: Response)
      modifies this
      ensures if fails then response == Respond(None) && buckets == old(buckets)
              else
                var (d, t) := Decide(old(buckets), maxKeys, c);
                buckets == t && response == Respond(Some(d))
      ensures fails ==> response == Unavailable(1)
      ensures !fails ==>
                var wait := Decide(old(buckets), maxKeys, c).0.retryAfter;
                && (Decide(old(buckets), maxKeys, c).0.allowed <==> response.Pass?)
                && (!response.Pass? ==>
                      && response.TooManyRequests? && response.retryAfterHeader >= 1
                      && response.retryAfterHeader * 1_000_000_000 >= wait
                      && (response.retryAfterHeader > 1 ==> (response.retryAfterHeader - 1) * 1_000_000_000 < wait))
    {
      if fails {
        return Unavailable(1);
      }
      var d := Allow(c);
      if d.allowed {
        return Pass;
      }
      var retrySeconds := (d.retryAfter + SECOND - 1) / SECOND;
      if retrySeconds < 1 {
        retrySeconds := 1;
      }
      response := TooManyRequests(retrySeconds);
    }
  }

  // ---- Sizes ----

  lemma {:induction false} SubsetSize<T>(a: set<T>, b: set<T>)
    requires a <= b
    ensures |a| <= |b|
    ensures |a| == |b| ==> a == b
  {
    if a != {} {
      var x :| x in a;
      SubsetSize(a - {x}, b - {x});
    }
  }

  lemma LiveSize(t: Table, now: int)
    ensures |LiveOf(t, now)| <= |t|
    ensures |LiveOf(t, now)| == |t| ==> LiveOf(t, now) == t
  {
    SubsetSize(LiveOf(t, now).Keys, t.Keys);
    if LiveOf(t, now).Keys == t.Keys {
      assert LiveOf(t, now) == t;
    }
  }

  lemma RemoveSize(t: Table, key: string)
    ensures |t - {key}| == |t| - if key in t then 1 else 0
  {
  }

  // ---- The bounded table refines the unbounded one ----

  /** The call finds every place taken by some other client's running window. */
  predicate Crowded(t: Table, maxKeys: nat, c: Call) {
    !HasLive(t, KeyOf(c), c.now) && |LiveOf(t, c.now)| >= maxKeys
  }

  lemma LiveOfRest(t: Table, key: string, now: int)
    requires !HasLive(t, key, now)
    ensures LiveOf(t - {key}, now) == LiveOf(t, now)
    ensures LiveOf(LiveOf(t, now), now) == LiveOf(t, now)
  {
  }

  lemma RoomIsLive(t: Table, maxKeys: nat, key: string, now: int)
    requires !HasLive(t, key, now)
    ensures var room := RoomFor(t, maxKeys, key, now);
            && key !in room
            && LiveOf(room, now) == LiveOf(t, now)
            && (|room| >= maxKeys <==> |LiveOf(t, now)| >= maxKeys)
            && |room| <= |t|
  {
    LiveOfRest(t, key, now);
    LiveSize(t - {key}, now);
    RemoveSize(t, key);
  }

  lemma LiveOfUpdate(t: Table, key: string, b: Bucket, now: int)
    ensures LiveOf(t[key := b], now) == if Live(b, now) then LiveOf(t, now)[key := b] else LiveOf(t, now) - {key}
  {
  }

  lemma RunningWindow(t: Table, c: Call)
    requires HasLive(t, KeyOf(c), c.now)
    ensures Ideal(t, c).0 == Ideal(LiveOf(t, c.now), c).0
    ensures LiveOf(Ideal(t, c).1, c.now) == Ideal(LiveOf(t, c.now), c).1
    ensures |Ideal(t, c).1| == |t|
  {
  }

  lemma CrowdedOut(t: Table, maxKeys: nat, c: Call)
    requires Crowded(t, maxKeys, c)
    ensures var (d, t') := Decide(t, maxKeys, c);
            d == Decision(false, WindowOf(c)) && LiveOf(t', c.now) == LiveOf(t, c.now)
  {
    RoomIsLive(t, maxKeys, KeyOf(c), c.now);
  }

  lemma DecidesFresh(t: Table, maxKeys: nat, c: Call, key: string, window: nat, now: int)
    requires key == KeyOf(c) && window == WindowOf(c) && now == c.now && !HasLive(t, key, now)
    ensures var room := RoomFor(t, maxKeys, key, now);
            Decide(t, maxKeys, c) == if |room| >= maxKeys then (Decision(false, window), room)
                                     else (Decision(true, window), room[key := Bucket(now + window, 1)])
  {
  }

  lemma UpdatedRoom(t: Table, maxKeys: nat, key: string, b: Bucket, now: int)
    requires !HasLive(t, key, now) && Live(b, now)
    ensures LiveOf(RoomFor(t, maxKeys, key, now)[key := b], now) == LiveOf(t, now)[key := b]
  {
    RoomIsLive(t, maxKeys, key, now);
    LiveOfUpdate(RoomFor(t, maxKeys, key, now), key, b, now);
  }

  lemma NewWindow(t: Table, maxKeys: nat, c: Call)
    requires !HasLive(t, KeyOf(c), c.now) && !Crowded(t, maxKeys, c)
    ensures var (d, t') := Decide(t, maxKeys, c);
            var b := Bucket(c.now + WindowOf(c), 1);
            d == Decision(true, WindowOf(c)) && LiveOf(t', c.now) == LiveOf(t, c.now)[KeyOf(c) := b]
  {
    DecidesFresh(t, maxKeys, c, KeyOf(c), WindowOf(c), c.now);
    RoomIsLive(t, maxKeys, KeyOf(c), c.now);
    UpdatedRoom(t, maxKeys, KeyOf(c), Bucket(c.now + WindowOf(c), 1), c.now);
  }

  lemma UpdateSize(t: Table, key: string, b: Bucket)
    ensures |t[key := b]| == |t| + if key in t then 0 else 1
  {
  }

  lemma NewWindowFits(t: Table, maxKeys: nat, c: Call)
    requires !HasLive(t, KeyOf(c), c.now) && |t| <= maxKeys
    ensures |Decide(t, maxKeys, c).1| <= maxKeys
  {
    var key := KeyOf(c);
    RoomIsLive(t, maxKeys, key, c.now);
    UpdateSize(RoomFor(t, maxKeys, key, c.now), key, Bucket(c.now + WindowOf(c), 1));
  }

  /**
   * One call decides exactly like the unbounded limiter on the running windows, unless the call is crowded
   * out; then it is refused and every running window stays as it is.
   */
  lemma BoundedRefinesUnbounded(t: Table, maxKeys: nat, c: Call)
    ensures var (d, t') := Decide(t, maxKeys, c);
            if Crowded(t, maxKeys, c)
            then d == Decision(false, WindowOf(c)) && LiveOf(t', c.now) == LiveOf(t, c.now)
            else var (ideal, u) := Ideal(LiveOf(t, c.now), c); d == ideal && LiveOf(t', c.now) == u
    ensures |t| <= maxKeys ==> |Decide(t, maxKeys, c).1| <= maxKeys
  {
    if HasLive(t, KeyOf(c), c.now) {
      RunningWindow(t, c);
    } else {
      if Crowded(t, maxKeys, c) {
        CrowdedOut(t, maxKeys, c);
      } else {
        NewWindow(t, maxKeys, c);
      }
      if |t| <= maxKeys {
        NewWindowFits(t, maxKeys, c);
      }
    }
  }

  // ---- Whole histories ----

  /** The table after a history of calls, oldest first, starting empty. */
  function RunTable(maxKeys: nat, calls: seq<Call>): Table {
    if calls == [] then map[] else Decide(RunTable(maxKeys, calls[..|calls| - 1]), maxKeys, calls[|calls| - 1]).1
  }

  /** What the last call of a history was told. */
  function LastDecision(maxKeys: nat, calls: seq<Call>): Decision
    requires calls != []
  {
    Decide(RunTable(maxKeys, calls[..|calls| - 1]), maxKeys, calls[|calls| - 1]).0
  }

  /** The clock never goes back. */
  predicate Monotone(calls: seq<Call>) {
    forall i, j :: 0 <= i < j < |calls| ==> calls[i].now <= calls[j].now
  }

  /** The unbounded limiter on the same history, not told of the calls that are crowded out. */
  function RunIdeal(maxKeys: nat, calls: seq<Call>): Table {
    if calls == [] then map[]
    else
      var n := |calls| - 1;
      if Crowded(RunTable(maxKeys, calls[..n]), maxKeys, calls[n]) then RunIdeal(maxKeys, calls[..n])
      else Ideal(RunIdeal(maxKeys, calls[..n]), calls[n]).1
  }

  lemma LiveLater(t: Table, u: Table, now: int, later: int)
    requires LiveOf(t, now) == LiveOf(u, now) && now <= later
    ensures LiveOf(t, later) == LiveOf(u, later)
  {
    forall key ensures HasLive(t, key, later) <==> HasLive(u, key, later)
      ensures HasLive(t, key, later) ==> t[key] == u[key]
    {
      assert key in LiveOf(t, now) <==> HasLive(t, key, now);
      assert key in LiveOf(u, now) <==> HasLive(u, key, now);
      assert HasLive(t, key, later) ==> key in LiveOf(t, now) && LiveOf(t, now)[key] == t[key];
      assert HasLive(u, key, later) ==> key in LiveOf(u, now) && LiveOf(u, now)[key] == u[key];
    }
  }

  /** The unbounded limiter only looks at running windows. */
  lemma IdealLooksAtLive(t: Table, c: Call)
    ensures Ideal(t, c).0 == Ideal(LiveOf(t, c.now), c).0
    ensures LiveOf(Ideal(t, c).1, c.now) == Ideal(LiveOf(t, c.now), c).1
  {
  }

  /**
   * Over every history with a monotone clock the table never outgrows its bound, every running window is
   * exactly the unbounded limiter's, and so is every decision but a refusal of a crowded-out call.
   */
  lemma {:induction false} HistoryRefinesUnbounded(maxKeys: nat, calls: seq<Call>, now: int)
    requires Monotone(calls) && (calls != [] ==> calls[|calls| - 1].now <= now)
    ensures |RunTable(maxKeys, calls)| <= maxKeys
    ensures LiveOf(RunTable(maxKeys, calls), now) == LiveOf(RunIdeal(maxKeys, calls), now)
    ensures calls != [] ==>
              var n := |calls| - 1;
              LastDecision(maxKeys, calls)
                == if Crowded(RunTable(maxKeys, calls[..n]), maxKeys, calls[n]) then Decision(false, WindowOf(calls[n]))
                   else Ideal(RunIdeal(maxKeys, calls[..n]), calls[n]).0
  {
    if calls != [] {
      var n := |calls| - 1;
      var c := calls[n];
      var t, u := RunTable(maxKeys, calls[..n]), RunIdeal(maxKeys, calls[..n]);
      HistoryRefinesUnbounded(maxKeys, calls[..n], c.now);
      BoundedRefinesUnbounded(t, maxKeys, c);
      IdealLooksAtLive(u, c);
      LiveLater(RunTable(maxKeys, calls), RunIdeal(maxKeys, calls), c.now, now);
    }
  }

  // ---- At most (k + 1) L admissions in k windows ----

  /** How many calls of `key` were admitted at times from `a` up to but not including `b`. */
  function Admitted(maxKeys: nat, calls: seq<Call>, key: string, a: int, b: int): nat {
    if calls == [] then 0
    else
      var c := calls[|calls| - 1];
      Admitted(maxKeys, calls[..|calls| - 1], key, a, b)
      + if KeyOf(c) == key && LastDecision(maxKeys, calls).allowed && a <= c.now < b then 1 else 0
  }

  predicate Uses(c: Call, key: string, limit: nat, window: nat) {
    KeyOf(c) == key ==>
      && limit == (if c.limit <= 0 then 1 else c.limit)
      && window == (if c.window <= 0 then 60_000_000_000 else c.window)
  }

  /** Every call of `key` asks for the same limit and window; asking for none means one call a minute. */
  predicate Fixed(calls: seq<Call>, key: string, limit: nat, window: nat) {
    forall i :: 0 <= i < |calls| ==> Uses(calls[i], key, limit, window)
  }

  /** The bucket the last admission of `key` was counted in, though it may since have expired and gone. */
  function LastBucket(maxKeys: nat, calls: seq<Call>, key: string): Option<Bucket> {
    if calls == [] then None
    else
      var c, t := calls[|calls| - 1], RunTable(maxKeys, calls);
      if KeyOf(c) == key && LastDecision(maxKeys, calls).allowed && key in t then Some(t[key])
      else LastBucket(maxKeys, calls[..|calls| - 1], key)
  }

  /** While the last bucket of a key is running the table holds it, and it holds no other running bucket. */
  predicate Remembered(t: Table, key: string, last: Option<Bucket>, now: int) {
    && (HasLive(t, key, now) ==> last == Some(t[key]))
    && (last.Some? && Live(last.value, now) ==> key in t && t[key] == last.value)
  }

  lemma OtherKeyStays(t: Table, maxKeys: nat, c: Call, key: string, now: int)
    requires KeyOf(c) != key && c.now <= now
    ensures var t' := Decide(t, maxKeys, c).1;
            (HasLive(t', key, now) <==> HasLive(t, key, now)) && (HasLive(t, key, now) ==> t'[key] == t[key])
  {
    var room := RoomFor(t, maxKeys, KeyOf(c), c.now);
    assert key in room ==> key in t && room[key] == t[key];
    assert HasLive(t, key, now) ==> HasLive(t, key, c.now) && key in room;
  }

  /** What a call on the key itself does to its bucket. */
  lemma OwnCall(t: Table, maxKeys: nat, c: Call)
    ensures var (d, t') := Decide(t, maxKeys, c);
            var key := KeyOf(c);
            if d.allowed then
              key in t' && t'[key] == if HasLive(t, key, c.now) then t[key].(count := t[key].count + 1)
                                      else Bucket(c.now + WindowOf(c), 1)
            else if HasLive(t, key, c.now) then t' == t
            else key !in t'
    ensures Decide(t, maxKeys, c).0.allowed && HasLive(t, KeyOf(c), c.now) ==> t[KeyOf(c)].count < LimitOf(c)
  {
  }

  lemma {:induction false} LastIsRemembered(maxKeys: nat, calls: seq<Call>, key: string, now: int)
    requires Monotone(calls) && (calls != [] ==> calls[|calls| - 1].now <= now)
    ensures Remembered(RunTable(maxKeys, calls), key, LastBucket(maxKeys, calls, key), now)
  {
    if calls != [] {
      var n := |calls| - 1;
      var c, t := calls[n], RunTable(maxKeys, calls[..n]);
      LastIsRemembered(maxKeys, calls[..n], key, c.now);
      LastIsRemembered(maxKeys, calls[..n], key, now);
      if KeyOf(c) == key {
        OwnCall(t, maxKeys, c);
      } else {
        OtherKeyStays(t, maxKeys, c, key, now);
      }
    }
  }

  /** The last bucket was opened by a call that has already been made. */
  lemma {:induction false} LastIsOld(maxKeys: nat, calls: seq<Call>, key: string, limit: nat, window: nat)
    requires Monotone(calls) && Fixed(calls, key, limit, window)
    ensures var last := LastBucket(maxKeys, calls, key);
            last.Some? ==> calls != [] && last.value.expiresAt <= calls[|calls| - 1].now + window
  {
    if calls != [] {
      var n := |calls| - 1;
      LastIsOld(maxKeys, calls[..n], key, limit, window);
      LastIsRemembered(maxKeys, calls[..n], key, calls[n].now);
      if KeyOf(calls[n]) == key {
        OwnCall(RunTable(maxKeys, calls[..n]), maxKeys, calls[n]);
      }
    }
  }

  function Times(k: nat, x: nat): nat {
    if k == 0 then 0 else x + Times(k - 1, x)
  }

  lemma {:induction false} TimesIsProduct(k: nat, x: nat)
    ensures Times(k, x) == k * x
  {
    if k > 0 {
      TimesIsProduct(k - 1, x);
      assert k * x == x + (k - 1) * x;
    }
  }

  /** Admissions since `a` fill the last bucket, and at most `k` earlier ones if it began before `a + k * window`. */
  ghost predicate Allowance(admitted: nat, last: Option<Bucket>, limit: nat, window: nat, a: int, k: nat) {
    match last
    case None => admitted == 0
    case Some(b) =>
      && b.count <= limit
      && (b.expiresAt - window < a + Times(k, window) ==> admitted <= b.count + Times(k, limit))
  }

  lemma {:induction false} NoneBefore(maxKeys: nat, calls: seq<Call>, key: string, a: int, b: int)
    requires Monotone(calls) && (calls != [] ==> calls[|calls| - 1].now < a)
    ensures Admitted(maxKeys, calls, key, a, b) == 0
  {
    if calls != [] {
      NoneBefore(maxKeys, calls[..|calls| - 1], key, a, b);
    }
  }

  lemma AdmissionStep(t: Table, maxKeys: nat, c: Call, admitted: nat, last: Option<Bucket>, a: int, k: nat, more: nat)
    requires Decide(t, maxKeys, c).0.allowed && Remembered(t, KeyOf(c), last, c.now)
    requires more <= 1 && (c.now < a ==> admitted + more == 0)
    requires Allowance(admitted, last, LimitOf(c), WindowOf(c), a, k)
    requires k > 0 ==> Allowance(admitted, last, LimitOf(c), WindowOf(c), a, k - 1)
    ensures KeyOf(c) in Decide(t, maxKeys, c).1
    ensures Allowance(admitted + more, Some(Decide(t, maxKeys, c).1[KeyOf(c)]), LimitOf(c), WindowOf(c), a, k)
  {
  }

  ghost predicate AlwaysAllowed(admitted: nat, last: Option<Bucket>, limit: nat, window: nat, a: int) {
    forall k: nat :: Allowance(admitted, last, limit, window, a, k)
  }

  /** One more call, of this key or another, admitted or not. */
  lemma CallStep(t: Table, maxKeys: nat, c: Call, key: string, limit: nat, window: nat, a: int, b: int,
                 admitted: nat, last: Option<Bucket>, admitted': nat, last': Option<Bucket>)
    requires Uses(c, key, limit, window) && Remembered(t, key, last, c.now) && (c.now < a ==> admitted' == 0)
    requires var own := KeyOf(c) == key && Decide(t, maxKeys, c).0.allowed;
             && admitted' == admitted + (if own && a <= c.now < b then 1 else 0)
             && last' == if own && key in Decide(t, maxKeys, c).1 then Some(Decide(t, maxKeys, c).1[key]) else last
    requires AlwaysAllowed(admitted, last, limit, window, a)
    ensures AlwaysAllowed(admitted', last', limit, window, a)
  {
    if KeyOf(c) == key && Decide(t, maxKeys, c).0.allowed {
      forall k: nat ensures Allowance(admitted', last', limit, window, a, k) {
        assert Allowance(admitted, last, limit, window, a, k);
        assert k > 0 ==> Allowance(admitted, last, limit, window, a, k - 1);
        AdmissionStep(t, maxKeys, c, admitted, last, a, k, if a <= c.now < b then 1 else 0);
      }
    }
  }

  lemma Unroll(maxKeys: nat, calls: seq<Call>, c: Call, key: string, a: int, b: int)
    ensures var t := RunTable(maxKeys, calls);
            var own := KeyOf(c) == key && Decide(t, maxKeys, c).0.allowed;
            && Admitted(maxKeys, calls + [c], key, a, b)
                 == Admitted(maxKeys, calls, key, a, b) + (if own && a <= c.now < b then 1 else 0)
            && LastBucket(maxKeys, calls + [c], key)
                 == if own && key in Decide(t, maxKeys, c).1 then Some(Decide(t, maxKeys, c).1[key])
                    else LastBucket(maxKeys, calls, key)
  {
  }

  lemma OneMoreCall(maxKeys: nat, calls: seq<Call>, c: Call, key: string, limit: nat, window: nat, a: int, b: int)
    requires Monotone(calls) && (calls != [] ==> calls[|calls| - 1].now <= c.now) && Uses(c, key, limit, window)
    requires c.now < a ==> Admitted(maxKeys, calls + [c], key, a, b) == 0
    requires AlwaysAllowed(Admitted(maxKeys, calls, key, a, b), LastBucket(maxKeys, calls, key), limit, window, a)
    ensures AlwaysAllowed(Admitted(maxKeys, calls + [c], key, a, b), LastBucket(maxKeys, calls + [c], key),
                          limit, window, a)
  {
    LastIsRemembered(maxKeys, calls, key, c.now);
    Unroll(maxKeys, calls, c, key, a, b);
    CallStep(RunTable(maxKeys, calls), maxKeys, c, key, limit, window, a, b,
             Admitted(maxKeys, calls, key, a, b), LastBucket(maxKeys, calls, key),
             Admitted(maxKeys, calls + [c], key, a, b), LastBucket(maxKeys, calls + [c], key));
  }

  lemma {:induction false} AdmissionsFillBuckets(
    maxKeys: nat, calls: seq<Call>, key: string, limit: nat, window: nat, a: int, b: int)
    requires Monotone(calls) && Fixed(calls, key, limit, window)
    ensures AlwaysAllowed(Admitted(maxKeys, calls, key, a, b), LastBucket(maxKeys, calls, key), limit, window, a)
  {
    if calls != [] {
      var before, c := calls[..|calls| - 1], calls[|calls| - 1];
      AdmissionsFillBuckets(maxKeys, before, key, limit, window, a, b);
      if c.now < a {
        NoneBefore(maxKeys, calls, key, a, b);
      }
      assert calls == before + [c];
      OneMoreCall(maxKeys, before, c, key, limit, window, a, b);
    }
  }

  lemma FinalCount(admitted: nat, last: Option<Bucket>, limit: nat, window: nat, a: int, k: nat, now: int)
    requires AlwaysAllowed(admitted, last, limit, window, a)
    requires last.Some? ==> last.value.expiresAt <= now + window
    requires now < a + Times(k, window)
    ensures admitted <= limit + Times(k, limit)
  {
    assert Allowance(admitted, last, limit, window, a, k);
  }

  lemma {:induction false} CountBefore(
    maxKeys: nat, calls: seq<Call>, key: string, limit: nat, window: nat, a: int, k: nat, b: int)
    requires Monotone(calls) && Fixed(calls, key, limit, window) && b == a + Times(k, window)
    ensures Admitted(maxKeys, calls, key, a, b) <= limit + Times(k, limit)
  {
    if calls != [] {
      var n := |calls| - 1;
      if calls[n].now >= b {
        CountBefore(maxKeys, calls[..n], key, limit, window, a, k, b);
      } else {
        AdmissionsFillBuckets(maxKeys, calls, key, limit, window, a, b);
        LastIsOld(maxKeys, calls, key, limit, window);
        FinalCount(Admitted(maxKeys, calls, key, a, b), LastBucket(maxKeys, calls, key),
                   limit, window, a, k, calls[n].now);
      }
    }
  }

  /**
   * With a fixed limit and window for a key and a monotone clock, any `k` windows' worth of time sees at most
   * `(k + 1) * limit` admissions of that key, whatever else the table was used for.
   */
  lemma WindowBound(maxKeys: nat, calls: seq<Call>, key: string, limit: nat, window: nat, a: int, k: nat)
    requires Monotone(calls) && Fixed(calls, key, limit, window)
    ensures Admitted(maxKeys, calls, key, a, a + k * window) <= (k + 1) * limit
  {
    TimesIsProduct(k, window);
    TimesIsProduct(k, limit);
    CountBefore(maxKeys, calls, key, limit, window, a, k, a + Times(k, window));
    assert (k + 1) * limit == limit + k * limit;
  }

  // ---- Scopes ----

  /** A client of `y` can be mistaken for one of `x`: what follows `x` and a colon in `y` reads as a client's name. */
  predicate Shadows(x: string, y: string) {
    x + ":" <= y && (|y| == |x| + 1 || !IsSpace(y[|x| + 1]))
  }

  /** Of two equal keys the one with the shorter scope has the other's scope inside its client's name. */
  lemma LongerScopeIsShadowed(x: string, y: string, c: string, d: string)
    requires IsTrimmed(x) && IsTrimmed(y) && x != y && |x| <= |y|
    requires x + ":" + TrimSpace(c) == y + ":" + TrimSpace(d)
    ensures Shadows(x, y)
  {
    var key := x + ":" + TrimSpace(c);
    assert key[..|x|] == x && key[|x|] == ':';
    assert key[..|y|] == y;
    assert |x| == |y| ==> x == y;
    assert y[..|x| + 1] == key[..|x| + 1] == x + ":";
    TrimSpaceTrims(c);
    if |y| > |x| + 1 {
      assert TrimSpace(c)[0] == key[|x| + 1] == y[|x| + 1];
    }
  }

  /** What follows serves as the client's name. */
  lemma ShadowHasClients(x: string, y: string)
    requires IsTrimmed(x) && IsTrimmed(y) && Shadows(x, y)
    ensures JoinedKey(x, y[|x| + 1..] + ":") == JoinedKey(y, "")
  {
    var c := y[|x| + 1..] + ":";
    assert c[|c| - 1] == ':' && c[0] == (if |y| == |x| + 1 then ':' else y[|x| + 1]);
    TrimmedIsFixed(c);
    TrimmedIsFixed("");
    TrimmedIsFixed(x);
    TrimmedIsFixed(y);
    assert x + ":" + c == y + ":";
  }

  /**
   * Two different scopes have clients that share a bucket if and only if one scope, followed by a colon, begins the
   * other, and nothing or something other than white space comes after that colon.
   */
  lemma ScopesClashExactly(scope: string, other: string)
    requires TrimSpace(scope) != TrimSpace(other)
    ensures (exists c, d :: JoinedKey(scope, c) == JoinedKey(other, d))
       <==> Shadows(TrimSpace(scope), TrimSpace(other)) || Shadows(TrimSpace(other), TrimSpace(scope))
  {
    var x, y := TrimSpace(scope), TrimSpace(other);
    TrimSpaceTrims(scope);
    TrimSpaceTrims(other);
    TrimmedIsFixed(x);
    TrimmedIsFixed(y);
    if c, d :| JoinedKey(scope, c) == JoinedKey(other, d) {
      if |x| <= |y| {
        LongerScopeIsShadowed(x, y, c, d);
      } else {
        LongerScopeIsShadowed(y, x, d, c);
      }
    }
    if Shadows(x, y) {
      ShadowHasClients(x, y);
      assert JoinedKey(scope, y[|x| + 1..] + ":") == JoinedKey(other, "");
    }
    if Shadows(y, x) {
      ShadowHasClients(y, x);
      assert JoinedKey(scope, "") == JoinedKey(other, x[|y| + 1..] + ":");
    }
  }

  /** The condition is met by some scopes. */
  lemma ColonsCanClash()
    ensures Shadows("a", "a:b") && JoinedKey("a", "b:c") == JoinedKey("a:b", "c")
  {
    TrimmedIsFixed("a");
    TrimmedIsFixed("b:c");
    TrimmedIsFixed("a:b");
    TrimmedIsFixed("c");
  }

  lemma {:induction false} TrimLeftKeepsOut(s: string, c: char)
    ensures c !in s ==> c !in TrimLeft(s)
  {
    if s != "" && IsSpace(s[0]) {
      TrimLeftKeepsOut(s[1..], c);
    }
  }

  lemma TrimKeepsOut(s: string, c: char)
    requires c !in s
    ensures c !in TrimSpace(s)
  {
    TrimLeftKeepsOut(s, c);
    TrimRightKeepsFirst(TrimLeft(s));
  }

  /** So scopes without a colon never share a key. */
  lemma KeysAreSeparate(x: Call, y: Call)
    requires ':' !in x.scope && ':' !in y.scope
    ensures KeyOf(x) == KeyOf(y)
       <==> TrimSpace(x.scope) == TrimSpace(y.scope) && TrimSpace(x.clientKey) == TrimSpace(y.clientKey)
  {
    var a, b := TrimSpace(x.scope), TrimSpace(y.scope);
    TrimKeepsOut(x.scope, ':');
    TrimKeepsOut(y.scope, ':');
    if a != b {
      ScopesClashExactly(x.scope, y.scope);
      assert (a + ":")[|a|] == ':' && (b + ":")[|b|] == ':';
      assert !(a + ":" <= b) && !(b + ":" <= a);
      assert KeyOf(x) == JoinedKey(x.scope, x.clientKey) && KeyOf(y) == JoinedKey(y.scope, y.clientKey);
    } else {
      assert KeyOf(x)[|a| + 1..] == TrimSpace(x.clientKey) && KeyOf(y)[|a| + 1..] == TrimSpace(y.clientKey);
    }
  }

  // ---- Retry-After ----

  /** The seconds told to a client are the fewest whole seconds that cover the wait. */
  lemma SecondsCoverTheWait(wait: int)
    requires wait > 0
    ensures var s := RetrySeconds(wait); s >= 1 && (s - 1) * 1_000_000_000 < wait <= s * 1_000_000_000
  {
  }

  /**
   * A client refused for being over its limit is admitted by its next call if that comes no earlier than the
   * end of its window, and refused again if it comes before; so waiting the seconds it was told is enough.
   */
  lemma RetryAfterIsSound(t: Table, maxKeys: nat, c: Call, again: Call)
    requires |t| <= maxKeys && HasLive(t, KeyOf(c), c.now) && !Decide(t, maxKeys, c).0.allowed
    requires KeyOf(again) == KeyOf(c) && LimitOf(again) == LimitOf(c) && again.now >= c.now
    ensures var (d, t') := Decide(t, maxKeys, c);
            && (Decide(t', maxKeys, again).0.allowed <==> again.now >= c.now + d.retryAfter)
            && (again.now >= c.now + RetrySeconds(d.retryAfter) * 1_000_000_000 ==>
                  Decide(t', maxKeys, again).0.allowed)
  {
  }

  function TableAfter(t: Table, maxKeys: nat, calls: seq<Call>): Table {
    if calls == [] then t
    else Decide(TableAfter(t, maxKeys, calls[..|calls| - 1]), maxKeys, calls[|calls| - 1]).1
  }

  predicate OthersUntil(calls: seq<Call>, key: string, now: int) {
    forall i :: 0 <= i < |calls| ==> KeyOf(calls[i]) != key && calls[i].now <= now
  }

  /** Whatever other clients do, they leave a key's running window as it is. */
  lemma {:induction false} OthersLeaveWindow(t: Table, maxKeys: nat, calls: seq<Call>, key: string, now: int)
    requires OthersUntil(calls, key, now)
    ensures var t' := TableAfter(t, maxKeys, calls);
            (HasLive(t', key, now) <==> HasLive(t, key, now)) && (HasLive(t, key, now) ==> t'[key] == t[key])
  {
    if calls != [] {
      var n := |calls| - 1;
      OthersLeaveWindow(t, maxKeys, calls[..n], key, now);
      OtherKeyStays(TableAfter(t, maxKeys, calls[..n]), maxKeys, calls[n], key, now);
    }
  }

  // ---- One window, call by call ----

  function CountOf(calls: seq<Call>, key: string): nat {
    if calls == [] then 0
    else CountOf(calls[..|calls| - 1], key) + if KeyOf(calls[|calls| - 1]) == key then 1 else 0
  }

  /** Calls between two moments; those of `key` ask for `limit`. */
  predicate Within(calls: seq<Call>, key: string, limit: nat, from: int, to: int) {
    forall i :: 0 <= i < |calls| ==>
      from <= calls[i].now <= to && (KeyOf(calls[i]) == key ==> calls[i].limit == limit)
  }

  lemma OpensWindow(t: Table, maxKeys: nat, c: Call)
    requires !HasLive(t, KeyOf(c), c.now) && !Crowded(t, maxKeys, c) && c.limit > 0 && c.window > 0
    ensures var (d, t') := Decide(t, maxKeys, c);
            d.allowed && KeyOf(c) in t' && t'[KeyOf(c)] == Bucket(c.now + c.window, 1)
  {
    RoomIsLive(t, maxKeys, KeyOf(c), c.now);
  }

  lemma WindowCountsOne(t: Table, maxKeys: nat, c: Call, key: string, limit: nat, end: int, count: nat, now: int)
    requires key in t && t[key] == Bucket(end, count) && c.now <= now < end && limit > 0
    requires KeyOf(c) == key ==> c.limit == limit
    ensures var t' := Decide(t, maxKeys, c).1;
            key in t' && t'[key] == Bucket(end, if KeyOf(c) == key && count < limit then count + 1 else count)
  {
    if KeyOf(c) != key {
      OtherKeyStays(t, maxKeys, c, key, now);
    }
  }

  /** A running window counts its key's calls, whatever else is called, and stops at the limit. */
  lemma {:induction false} WindowCounts(
    t: Table, maxKeys: nat, calls: seq<Call>, key: string, limit: nat, from: int, end: int, now: int)
    requires limit > 0 && key in t && t[key] == Bucket(end, 1) && now < end && Within(calls, key, limit, from, now)
    ensures var t', n := TableAfter(t, maxKeys, calls), 1 + CountOf(calls, key);
            key in t' && t'[key] == Bucket(end, if n < limit then n else limit)
  {
    if calls != [] {
      var before, c := calls[..|calls| - 1], calls[|calls| - 1];
      WindowCounts(t, maxKeys, before, key, limit, from, end, now);
      var n := 1 + CountOf(before, key);
      WindowCountsOne(TableAfter(t, maxKeys, before), maxKeys, c, key, limit, end, if n < limit then n else limit, now);
    }
  }

  /**
   * A window opens with the first call that finds none and room for one, and that call is admitted. Until `window`
   * later exactly the first `limit` calls of the key are admitted, the others told how much of the window is left;
   * from then on a call is admitted unless it is crowded out.
   */
  lemma WindowAdmitsExactly(t: Table, maxKeys: nat, first: Call, calls: seq<Call>, to: int, c: Call)
    requires !HasLive(t, KeyOf(first), first.now) && !Crowded(t, maxKeys, first) && first.limit > 0 && first.window > 0
    requires Within(calls, KeyOf(first), first.limit, first.now, to) && to < first.now + first.window && to <= c.now
    requires KeyOf(c) == KeyOf(first) && c.limit == first.limit
    ensures Decide(t, maxKeys, first).0.allowed
    ensures var t' := TableAfter(Decide(t, maxKeys, first).1, maxKeys, calls);
            var d := Decide(t', maxKeys, c).0;
            if c.now < first.now + first.window
            then
              && (d.allowed <==> 1 + CountOf(calls, KeyOf(first)) < first.limit)
              && d.retryAfter == first.now + first.window - c.now
            else d.allowed <==> !(|LiveOf(t', c.now)| >= maxKeys)
  {
    var t1 := Decide(t, maxKeys, first).1;
    OpensWindow(t, maxKeys, first);
    WindowCounts(t1, maxKeys, calls, KeyOf(first), first.limit, first.now, first.now + first.window, to);
    BoundedRefinesUnbounded(TableAfter(t1, maxKeys, calls), maxKeys, c);
  }

  lemma DecidesOn(t: Table, maxKeys: nat, c: Call, key: string, limit: nat, now: int)
    requires key == KeyOf(c) && limit == LimitOf(c) && now == c.now && HasLive(t, key, now)
    ensures Decide(t, maxKeys, c) == if t[key].count >= limit then (Decision(false, t[key].expiresAt - now), t)
                                     else (Decision(true, t[key].expiresAt - now),
                                           t[key := t[key].(count := t[key].count + 1)])
  {
  }

  lemma SameDecision(t: Table, maxKeys: nat, c: Call, c': Call, key: string, limit: nat, window: nat, now: int)
    requires key == KeyOf(c) && limit == LimitOf(c) && window == WindowOf(c) && now == c.now
    requires key == KeyOf(c') && limit == LimitOf(c') && window == WindowOf(c') && now == c'.now
    ensures Decide(t, maxKeys, c') == Decide(t, maxKeys, c)
  {
    if HasLive(t, key, now) {
      DecidesOn(t, maxKeys, c, key, limit, now);
      DecidesOn(t, maxKeys, c', key, limit, now);
    } else {
      DecidesFresh(t, maxKeys, c, key, window, now);
      DecidesFresh(t, maxKeys, c', key, window, now);
    }
  }

  /** A limit or a window that is not positive stands for one call, and for one minute. */
  lemma DefaultsApply(t: Table, maxKeys: nat, c: Call)
    ensures c.limit <= 0 ==> Decide(t, maxKeys, c.(limit := 1)) == Decide(t, maxKeys, c)
    ensures c.window <= 0 ==> Decide(t, maxKeys, c.(window := 60_000_000_000)) == Decide(t, maxKeys, c)
  {
    if c.limit <= 0 {
      SameDecision(t, maxKeys, c, c.(limit := 1), KeyOf(c), LimitOf(c), WindowOf(c), c.now);
    }
    if c.window <= 0 {
      SameDecision(t, maxKeys, c, c.(window := 60_000_000_000), KeyOf(c), LimitOf(c), WindowOf(c), c.now);
    }
  }

  /** A client that finds the table full of other running windows is told to wait for the length of its own. */
  lemma CrowdedOutWaits(t: Table, maxKeys: nat, c: Call)
    requires !HasLive(t, KeyOf(c), c.now) && |LiveOf(t, c.now)| >= maxKeys && c.window > 0
    ensures Decide(t, maxKeys, c).0 == Decision(false, c.window)
  {
    CrowdedOut(t, maxKeys, c);
  }

  /**
   * A client refused for being over its limit, after any calls of other clients in between: its next call is
   * admitted if and only if its window has ended and the call is not crowded out.
   */
  lemma RetryAmongOthers(t: Table, maxKeys: nat, c: Call, others: seq<Call>, again: Call)
    requires HasLive(t, KeyOf(c), c.now) && !Decide(t, maxKeys, c).0.allowed
    requires KeyOf(again) == KeyOf(c) && LimitOf(again) == LimitOf(c)
    requires OthersUntil(others, KeyOf(c), again.now)
    ensures var (d, t') := Decide(t, maxKeys, c);
            var t2 := TableAfter(t', maxKeys, others);
            Decide(t2, maxKeys, again).0.allowed
            <==> again.now >= c.now + d.retryAfter && !Crowded(t2, maxKeys, again)
  {
    var t2 := TableAfter(t, maxKeys, others);
    OthersLeaveWindow(t, maxKeys, others, KeyOf(c), again.now);
    BoundedRefinesUnbounded(t2, maxKeys, again);
  }

  /** A client crowded out is admitted by its next call if and only if some running window has ended by then. */
  lemma CrowdedRetry(t: Table, maxKeys: nat, c: Call, again: Call)
    requires |t| <= maxKeys && Crowded(t, maxKeys, c)
    requires KeyOf(again) == KeyOf(c) && again.now >= c.now
    ensures Decide(Decide(t, maxKeys, c).1, maxKeys, again).0.allowed
       <==> exists key :: HasLive(t, key, c.now) && !HasLive(t, key, again.now)
  {
    var t' := Decide(t, maxKeys, c).1;
    BoundedRefinesUnbounded(t, maxKeys, c);
    RoomIsLive(t, maxKeys, KeyOf(c), c.now);
    BoundedRefinesUnbounded(t', maxKeys, again);
    LiveSize(t', c.now);
    LiveSize(t', again.now);
    assert |t'| == maxKeys && t' == LiveOf(t, c.now);
    if LiveOf(t', again.now) != t' {
      var key :| key in t' && !Live(t'[key], again.now);
      assert HasLive(t, key, c.now) && !HasLive(t, key, again.now);
    } else {
      forall key | HasLive(t, key, c.now) ensures HasLive(t, key, again.now) {
        assert key in LiveOf(t', again.now);
      }
    }
  }
}
